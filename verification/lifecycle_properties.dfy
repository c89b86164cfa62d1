/** Properties that relate the lifecycle transitions to each other and to the state
    invariants the binding manager is meant to keep.
 */
module LifecycleProperties {
  import opened Wrappers
  import opened ServerState
  import opened Lifecycle

  /** Every transition keeps the personalities consistent with the active model, on
      every outcome: either both are left alone or both are written together.
      Reload: clearing writes None to both. */
  lemma ReloadPreservesConsistency(s: Server, o: Oracle, name: string)
    requires Consistent(s)
    ensures Consistent(Reload(s, o, name).state)
  {
  }

  /** Install: a failure before the model is rebuilt writes neither. */
  lemma InstallPreservesConsistency(s: Server, o: Oracle, name: string)
    requires Consistent(s)
    ensures Consistent(Install(s, o, name).state)
  {
  }

  /** Reinstall: likewise. */
  lemma ReinstallPreservesConsistency(s: Server, o: Oracle, name: string)
    requires Consistent(s)
    ensures Consistent(Reinstall(s, o, name).state)
  {
  }

  /** Uninstall: removing the configured binding writes neither. */
  lemma UninstallPreservesConsistency(s: Server, o: Oracle, name: string)
    requires Consistent(s)
    ensures Consistent(Uninstall(s, o, name).state)
  {
  }

  /** With no active binding there is no active model. */
  predicate BoundModel(s: Server)
  {
    s.binding.None? ==> s.model.None?
  }

  /** Installing while no name is configured drops the binding but keeps the model, so
      the state can end with a model and no binding to own it. */
  lemma InstallCanOrphanModel()
    ensures
      var s := Server(None, Some(BindingId(1)), Some(ModelId(1)), [], false);
      var o := Oracle((n, p) => Success(BindingId(2)), b => Success(ModelId(2)), b => Pass, b => Pass);
      && BoundModel(s)
      && Install(s, o, "x").reply == Status(true)
      && !BoundModel(Install(s, o, "x").state)
  {
  }

  /** When a name is configured, reinstall and install succeed together and then leave
      the same state after the same delegate calls: they differ only in how a failure
      leaves the binding. */
  lemma ReinstallAgreesWithInstall(s: Server, o: Oracle, name: string)
    requires s.configName.Some?
    ensures Install(s, o, name).reply == Status(true) <==> Reinstall(s, o, name).reply == Status(true)
    ensures Install(s, o, name).reply == Status(true) ==>
              && Install(s, o, name).state == Reinstall(s, o, name).state
              && Install(s, o, name).calls == Reinstall(s, o, name).calls
  {
  }

  /** Installing a binding other than the configured one and then uninstalling it, each
      request seeing its own delegates, rebuilds the active binding under the same name:
      the state is the one the install left except that a new instance is bound and its
      new model is pushed to the same personalities. (What install really changes, the
      installed files, is outside this model.) */
  lemma UninstallAfterInstallRebuildsActive(s: Server, o: Oracle, o2: Oracle, name: string)
    requires s.configName.Some? && s.configName != Some(name)
    requires Install(s, o, name).reply == Status(true)
    requires Uninstall(Install(s, o, name).state, o2, name).reply == Status(true)
    ensures o2.build(s.configName, BuilderDefault).Success?
    ensures o2.buildModel(o2.build(s.configName, BuilderDefault).value).Success?
    ensures
      var b := o2.build(s.configName, BuilderDefault).value;
      var m := o2.buildModel(b).value;
      Uninstall(Install(s, o, name).state, o2, name).state
        == Install(s, o, name).state.(binding := Some(b), model := Some(m),
                                      personalities := Remount(Install(s, o, name).state.personalities, Some(m)))
    ensures Uninstall(Install(s, o, name).state, o2, name).state.configName == s.configName
    ensures SameMounts(Install(s, o, name).state.personalities,
                       Uninstall(Install(s, o, name).state, o2, name).state.personalities)
  {
  }

  // ----------------------------------------------------------------------------
  // Runs of requests, handled one at a time

  datatype Endpoint = ReloadBinding | InstallBinding | ReinstallBinding | UninstallBinding

  /** One administrative request, with the delegates as they behave when it is served. */
  datatype Request = Request(endpoint: Endpoint, name: string, oracle: Oracle)

  function Serve(s: Server, q: Request): (r: Step)
  {
    match q.endpoint
    case ReloadBinding => Reload(s, q.oracle, q.name)
    case InstallBinding => Install(s, q.oracle, q.name)
    case ReinstallBinding => Reinstall(s, q.oracle, q.name)
    case UninstallBinding => Uninstall(s, q.oracle, q.name)
  }

  /** The state after serving the requests in order, whatever each one replies. */
  function Run(s: Server, qs: seq<Request>): (r: Server)
    decreases |qs|
  {
    if |qs| == 0 then s else Run(Serve(s, qs[0]).state, qs[1..])
  }

  lemma SameMountsTransitive(a: Mounts, b: Mounts, c: Mounts)
    requires SameMounts(a, b) && SameMounts(b, c)
    ensures SameMounts(a, c)
  {
  }

  /** No sequence of requests, succeeding or failing, leaves a personality holding a
      model other than the active one, adds or removes a personality, or changes the
      auto-save flag. */
  lemma {:induction false} RunPreservesConsistency(s: Server, qs: seq<Request>)
    requires Consistent(s)
    ensures Consistent(Run(s, qs))
    ensures SameMounts(s.personalities, Run(s, qs).personalities)
    ensures Run(s, qs).autoSave == s.autoSave
    decreases |qs|
  {
    if |qs| > 0 {
      var q := qs[0];
      var next := Serve(s, q).state;
      match q.endpoint {
        case ReloadBinding => ReloadPreservesConsistency(s, q.oracle, q.name);
        case InstallBinding => InstallPreservesConsistency(s, q.oracle, q.name);
        case ReinstallBinding => ReinstallPreservesConsistency(s, q.oracle, q.name);
        case UninstallBinding => UninstallPreservesConsistency(s, q.oracle, q.name);
      }
      RunPreservesConsistency(next, qs[1..]);
      SameMountsTransitive(s.personalities, next.personalities, Run(next, qs[1..]).personalities);
    }
  }
}
