/** The shared state the binding endpoints read and write, the delegates they call
    but whose code is not part of this model, and the replies they produce.

    In lollms the state lives on the LOLLMSElfServer singleton: `config.binding_name`,
    `binding`, `model`, `mounted_personalities` and `config.auto_save`. Here it is one
    immutable record, and each endpoint is a pure function from one record to the next.
 */
module ServerState {
  import opened Wrappers

  /** Identity of a loaded binding instance returned by the binding builder. */
  datatype BindingId = BindingId(handle: nat)

  /** Identity of a model instance returned by `binding.build_model()`. */
  datatype ModelId = ModelId(handle: nat)

  /** A mounted personality: everything but its model reference is opaque here. */
  datatype Personality = Personality(name: string, model: Option<ModelId>)

  /** `mounted_personalities`: a slot may hold None. */
  type Mounts = seq<Option<Personality>>

  datatype Server = Server(
    configName: Option<string>,     // config.binding_name
    binding: Option<BindingId>,     // the active binding instance
    model: Option<ModelId>,         // the active model instance
    personalities: Mounts,          // mounted personalities
    autoSave: bool)                 // config.auto_save

  /** The install option handed to the builder. `BuilderDefault` is the builder's own
      default argument, used wherever the endpoints omit the option. */
  datatype InstallPolicy = InstallIfNecessary | ForceInstall | NeverInstall | BuilderDefault

  /** The delegates the endpoints call. Each either answers or raises an exception,
      whose text is the error. `build` receives the configured binding name, which
      may be None. */
  datatype Oracle = Oracle(
    build: (Option<string>, InstallPolicy) -> Result<BindingId, string>,
    buildModel: BindingId -> Result<ModelId, string>,
    destroyModel: BindingId -> Outcome<string>,
    uninstall: BindingId -> Outcome<string>)

  /** One delegate call an endpoint made. */
  datatype Op =
    | BuildBinding(name: Option<string>, policy: InstallPolicy)
    | BuildModel(binding: BindingId)
    | DestroyModel(binding: BindingId)
    | UninstallBinding(binding: BindingId)

  datatype Call = Call(op: Op, outcome: Outcome<string>)

  /** The endpoint's return value:
      NoBody is Python's None, Status(b) is {"status": b},
      Error(m) is {"status": False, "error": m}. */
  datatype Reply = NoBody | Status(status: bool) | Error(message: string)

  /** The result of one endpoint: the state it leaves, what it returns, the delegate
      calls it made in order, and whether it saved the global configuration. */
  datatype Step = Step(state: Server, reply: Reply, calls: seq<Call>, saved: bool)

  /** What the oracle answers to a call. */
  function Answer(o: Oracle, op: Op): (r: Outcome<string>)
  {
    match op
    case BuildBinding(n, p) => Forget(o.build(n, p))
    case BuildModel(b) => Forget(o.buildModel(b))
    case DestroyModel(b) => o.destroyModel(b)
    case UninstallBinding(b) => o.uninstall(b)
  }

  /** Every recorded outcome is the one the oracle gives. */
  predicate Answered(o: Oracle, calls: seq<Call>)
  {
    forall i :: 0 <= i < |calls| ==> calls[i].outcome == Answer(o, calls[i].op)
  }

  predicate AllPassed(calls: seq<Call>)
  {
    forall i :: 0 <= i < |calls| ==> calls[i].outcome.Pass?
  }

  /** An exception ends the endpoint: only the last call may have raised. */
  predicate FailStop(calls: seq<Call>)
  {
    forall i :: 0 <= i < |calls| - 1 ==> calls[i].outcome.Pass?
  }

  /** The last call of the trace raised. */
  predicate Raised(calls: seq<Call>)
  {
    |calls| > 0 && calls[|calls| - 1].outcome.Fail?
  }

  /** The endpoint stopped at its first exception, and its reply is `success` unless
      that happened, in which case it is the error reply carrying the exception's text. */
  predicate Reports(r: Step, success: Reply)
  {
    && FailStop(r.calls)
    && r.reply == (if Raised(r.calls) then Error(r.calls[|r.calls| - 1].outcome.error) else success)
  }

  /** The trace `calls` followed by one more call. */
  function Then(calls: seq<Call>, c: Call): (r: seq<Call>)
    ensures |r| == |calls| + 1
    ensures r[|calls|] == c
    ensures forall i :: 0 <= i < |calls| ==> r[i] == calls[i]
  {
    calls + [c]
  }

  predicate Calls(calls: seq<Call>, op: Op)
  {
    exists i :: 0 <= i < |calls| && calls[i].op == op
  }

  /** Two mount lists differ at most in the model references they hold. */
  predicate SameMounts(a: Mounts, b: Mounts)
  {
    && |a| == |b|
    && forall i :: 0 <= i < |a| ==>
         && (a[i].None? <==> b[i].None?)
         && (a[i].Some? ==> a[i].value.name == b[i].value.name)
  }

  /** Every mounted personality holds the model reference `m`. */
  predicate AllMountedUse(ps: Mounts, m: Option<ModelId>)
  {
    forall i :: 0 <= i < |ps| && ps[i].Some? ==> ps[i].value.model == m
  }

  /** No mounted personality holds a model other than the active one. */
  predicate Consistent(s: Server)
  {
    forall i :: 0 <= i < |s.personalities| && s.personalities[i].Some? ==>
      s.personalities[i].value.model.None? || s.personalities[i].value.model == s.model
  }

  /** The loop `for per in mounted_personalities: if per is not None: per.model = m`. */
  function Remount(ps: Mounts, m: Option<ModelId>): (r: Mounts)
    ensures SameMounts(ps, r)
    ensures AllMountedUse(r, m)
    decreases |ps|
  {
    if |ps| == 0 then []
    else
      var head := if ps[0].None? then None else Some(ps[0].value.(model := m));
      [head] + Remount(ps[1..], m)
  }

  /** A mount list that already uses `m` everywhere is a fixpoint of remounting with `m`. */
  lemma RemountFixpoint(ps: Mounts, m: Option<ModelId>)
    requires AllMountedUse(ps, m)
    ensures Remount(ps, m) == ps
  {
  }

  /** Remounting with the same model a second time changes nothing. */
  lemma RemountIdempotent(ps: Mounts, m: Option<ModelId>)
    ensures Remount(Remount(ps, m), m) == Remount(ps, m)
  {
  }

  /** Remounting twice is remounting with the second model. */
  lemma RemountLastWins(ps: Mounts, m1: Option<ModelId>, m2: Option<ModelId>)
    ensures Remount(Remount(ps, m1), m2) == Remount(ps, m2)
  {
  }
}
