/** The four binding lifecycle endpoints of lollms_binding_infos.py as pure transitions.

    Each endpoint runs its statements in order against the shared state. A delegate
    that raises ends the endpoint: whatever was already written stays written, and the
    reply is {"status": False, "error": <exception text>}. The oracle decides what each
    delegate does.
 */
module Lifecycle {
  import opened Wrappers
  import opened ServerState

  /** `reload_binding`: write the requested name, release and clear the active binding,
      model and personality models, then build the requested binding. */
  function Reload(s: Server, o: Oracle, name: string): (r: Step)
    ensures Answered(o, r.calls)
    ensures Reports(r, NoBody)
    ensures r.state.configName == Some(name)
    ensures r.state.autoSave == s.autoSave
    ensures SameMounts(s.personalities, r.state.personalities)
    ensures r.saved <==> AllPassed(r.calls)
  {
    // line 80: the name is written before the try block
    var named := s.(configName := Some(name));
    var release := if s.binding.Some? then [Call(DestroyModel(s.binding.value), o.destroyModel(s.binding.value))] else [];
    if s.binding.Some? && o.destroyModel(s.binding.value).Fail? then
      Step(named, Error(o.destroyModel(s.binding.value).error), release, false)
    else
      var cleared := named.(binding := None, model := None, personalities := Remount(s.personalities, None));
      var request := BuildBinding(Some(name), InstallIfNecessary);
      match o.build(Some(name), InstallIfNecessary)
      case Failure(e) => Step(cleared, Error(e), Then(release, Call(request, Fail(e))), false)
      case Success(b) => Step(cleared.(binding := Some(b)), NoBody, Then(release, Call(request, Pass)), true)
  }

  /** `install_binding`: force-install `name` through the builder, drop the instance,
      restore the previous name and, when there was one, rebuild it and its model. */
  function Install(s: Server, o: Oracle, name: string): (r: Step)
    ensures Answered(o, r.calls)
    ensures Reports(r, Status(true))
    ensures r.state.autoSave == s.autoSave
    ensures SameMounts(s.personalities, r.state.personalities)
    ensures !r.saved
  {
    var previous := s.configName;
    var force := BuildBinding(Some(name), ForceInstall);
    match o.build(Some(name), ForceInstall)
    // line 120 raised: the name stays `name` and the previous binding is still assigned
    case Failure(e) => Step(s.(configName := Some(name)), Error(e), [Call(force, Fail(e))], false)
    case Success(_) =>
      var installed := [Call(force, Pass)];
      var restored := s.(binding := None, configName := previous);
      if previous.None? then
        Step(restored, Status(true), installed, false)
      else
        var rebuild := BuildBinding(previous, BuilderDefault);
        match o.build(previous, BuilderDefault)
        case Failure(e) => Step(restored, Error(e), Then(installed, Call(rebuild, Fail(e))), false)
        case Success(b) =>
          var rebound := restored.(binding := Some(b));
          var rebuilt := Then(installed, Call(rebuild, Pass));
          match o.buildModel(b)
          case Failure(e) => Step(rebound, Error(e), Then(rebuilt, Call(BuildModel(b), Fail(e))), false)
          case Success(m) =>
            Step(rebound.(model := Some(m), personalities := Remount(s.personalities, Some(m))),
                 Status(true), Then(rebuilt, Call(BuildModel(b), Pass)), false)
  }

  /** `reinstall_binding`: drop the active binding, force-install `name`, then rebuild
      whatever name was configured before, None included, and its model. */
  function Reinstall(s: Server, o: Oracle, name: string): (r: Step)
    ensures Answered(o, r.calls)
    ensures Reports(r, Status(true))
    ensures r.state.autoSave == s.autoSave
    ensures SameMounts(s.personalities, r.state.personalities)
    ensures !r.saved
  {
    var unmounted := s.(binding := None);
    var previous := s.configName;
    var force := BuildBinding(Some(name), ForceInstall);
    match o.build(Some(name), ForceInstall)
    case Failure(e) => Step(unmounted.(configName := Some(name)), Error(e), [Call(force, Fail(e))], false)
    case Success(forced) =>
      var installed := [Call(force, Pass)];
      var restored := unmounted.(binding := Some(forced), configName := previous);
      // line 161: no check of `previous` before rebuilding it
      var rebuild := BuildBinding(previous, BuilderDefault);
      match o.build(previous, BuilderDefault)
      case Failure(e) => Step(restored, Error(e), Then(installed, Call(rebuild, Fail(e))), false)
      case Success(b) =>
        var rebound := restored.(binding := Some(b));
        var rebuilt := Then(installed, Call(rebuild, Pass));
        match o.buildModel(b)
        case Failure(e) => Step(rebound, Error(e), Then(rebuilt, Call(BuildModel(b), Fail(e))), false)
        case Success(m) =>
          Step(rebound.(model := Some(m), personalities := Remount(s.personalities, Some(m))),
               Status(true), Then(rebuilt, Call(BuildModel(b), Pass)), false)
  }

  /** `unInstall_binding`: drop the active binding, load `name` without installing and
      run its uninstall hook; then either clear the name (it was the configured one) or
      restore and rebuild the previous one. Saves the configuration when auto-save is on. */
  function Uninstall(s: Server, o: Oracle, name: string): (r: Step)
    ensures Answered(o, r.calls)
    ensures Reports(r, Status(true))
    ensures r.state.autoSave == s.autoSave
    ensures SameMounts(s.personalities, r.state.personalities)
    ensures r.saved <==> AllPassed(r.calls) && s.autoSave
  {
    var unmounted := s.(binding := None);
    var previous := s.configName;
    var probe := BuildBinding(Some(name), NeverInstall);
    match o.build(Some(name), NeverInstall)
    case Failure(e) => Step(unmounted.(configName := Some(name)), Error(e), [Call(probe, Fail(e))], false)
    case Success(u) =>
      var loaded := unmounted.(configName := Some(name), binding := Some(u));
      match o.uninstall(u)
      case Fail(e) => Step(loaded, Error(e), [Call(probe, Pass), Call(UninstallBinding(u), Fail(e))], false)
      case Pass =>
        var removed := [Call(probe, Pass), Call(UninstallBinding(u), Pass)];
        if previous == Some(name) then
          // line 205: the name is cleared but `binding` still holds the uninstalled instance
          Step(loaded.(configName := None), Status(true), removed, s.autoSave)
        else
          var restored := loaded.(configName := previous);
          var rebuild := BuildBinding(previous, BuilderDefault);
          match o.build(previous, BuilderDefault)
          case Failure(e) => Step(restored, Error(e), Then(removed, Call(rebuild, Fail(e))), false)
          case Success(b) =>
            var rebound := restored.(binding := Some(b));
            var rebuilt := Then(removed, Call(rebuild, Pass));
            match o.buildModel(b)
            case Failure(e) => Step(rebound, Error(e), Then(rebuilt, Call(BuildModel(b), Fail(e))), false)
            case Success(m) =>
              Step(rebound.(model := Some(m), personalities := Remount(s.personalities, Some(m))),
                   Status(true), Then(rebuilt, Call(BuildModel(b), Pass)), s.autoSave)
  }

  // ----------------------------------------------------------------------------
  // Reload

  /** The destroy hook of the active binding, if there is one, did not raise. */
  predicate Released(s: Server, o: Oracle)
  {
    s.binding.None? || o.destroyModel(s.binding.value).Pass?
  }

  /** A failed build still leaves the requested name configured and no binding. */
  lemma ReloadFailureKeepsName(s: Server, o: Oracle, name: string)
    requires Released(s, o)
    requires o.build(Some(name), InstallIfNecessary).Failure?
    ensures Reload(s, o, name).state.configName == Some(name)
    ensures Reload(s, o, name).state.binding.None?
    ensures Reload(s, o, name).reply == Error(o.build(Some(name), InstallIfNecessary).error)
  {
  }

  /** Once the state is cleared, the model and every personality's model are None, on
      success and on build failure alike; on success the new binding is the one built. */
  lemma ReloadClearsModels(s: Server, o: Oracle, name: string)
    requires Released(s, o)
    ensures Reload(s, o, name).state.model.None?
    ensures AllMountedUse(Reload(s, o, name).state.personalities, None)
    ensures o.build(Some(name), InstallIfNecessary).Success? ==>
              Reload(s, o, name).state.binding == Some(o.build(Some(name), InstallIfNecessary).value)
  {
  }

  /** A raising destroy hook stops the reload after the name is written: nothing else changes. */
  lemma ReloadDestroyFailure(s: Server, o: Oracle, name: string)
    requires !Released(s, o)
    ensures Reload(s, o, name).state == s.(configName := Some(name))
    ensures Reload(s, o, name).reply == Error(o.destroyModel(s.binding.value).error)
    ensures !Calls(Reload(s, o, name).calls, BuildBinding(Some(name), InstallIfNecessary))
  {
  }

  // ----------------------------------------------------------------------------
  // Install

  /** A successful install leaves the configured name as it was; with no previous name
      the binding is None afterwards, the model is untouched and no model is built. */
  lemma InstallRestoresName(s: Server, o: Oracle, name: string)
    requires Install(s, o, name).reply == Status(true)
    ensures Install(s, o, name).state.configName == s.configName
    ensures s.configName.None? ==>
              && Install(s, o, name).state.binding.None?
              && Install(s, o, name).state.model == s.model
              && Install(s, o, name).state.personalities == s.personalities
              && forall b :: !Calls(Install(s, o, name).calls, BuildModel(b))
  {
  }

  /** A successful install with a previous name rebuilds that name and pushes the new
      model to every mounted personality. */
  lemma InstallPropagatesModel(s: Server, o: Oracle, name: string)
    requires s.configName.Some?
    requires Install(s, o, name).reply == Status(true)
    ensures o.build(s.configName, BuilderDefault).Success?
    ensures Install(s, o, name).state.binding == Some(o.build(s.configName, BuilderDefault).value)
    ensures Install(s, o, name).state.model.Some?
    ensures Install(s, o, name).state.model == Some(o.buildModel(o.build(s.configName, BuilderDefault).value).value)
    ensures AllMountedUse(Install(s, o, name).state.personalities, Install(s, o, name).state.model)
  {
  }

  /** Install never calls a destroy hook: the previous binding is overwritten, not released.
      If the forced install raises, the previous binding is still the assigned one. */
  lemma InstallNeverReleases(s: Server, o: Oracle, name: string)
    ensures forall b :: !Calls(Install(s, o, name).calls, DestroyModel(b))
    ensures o.build(Some(name), ForceInstall).Failure? ==>
              Install(s, o, name).state == s.(configName := Some(name))
  {
  }

  // ----------------------------------------------------------------------------
  // Reinstall

  /** After a successful forced install, reinstall always rebuilds the previous name,
      even when it is None. */
  lemma ReinstallAlwaysRebuilds(s: Server, o: Oracle, name: string)
    requires o.build(Some(name), ForceInstall).Success?
    ensures Calls(Reinstall(s, o, name).calls, BuildBinding(s.configName, BuilderDefault))
    ensures Reinstall(s, o, name).state.configName == s.configName
  {
  }

  /** A successful reinstall pushes the rebuilt model to every mounted personality. */
  lemma ReinstallPropagatesModel(s: Server, o: Oracle, name: string)
    requires Reinstall(s, o, name).reply == Status(true)
    ensures Reinstall(s, o, name).state.configName == s.configName
    ensures o.build(s.configName, BuilderDefault).Success?
    ensures Reinstall(s, o, name).state.binding == Some(o.build(s.configName, BuilderDefault).value)
    ensures Reinstall(s, o, name).state.model.Some?
    ensures Reinstall(s, o, name).state.model == Some(o.buildModel(o.build(s.configName, BuilderDefault).value).value)
    ensures Reinstall(s, o, name).state.personalities == Remount(s.personalities, Reinstall(s, o, name).state.model)
    ensures AllMountedUse(Reinstall(s, o, name).state.personalities, Reinstall(s, o, name).state.model)
  {
  }

  // ----------------------------------------------------------------------------
  // Uninstall

  /** Uninstalling the configured binding clears the name, rebuilds nothing, leaves the
      model and personalities alone and leaves the uninstalled instance assigned. */
  lemma UninstallActive(s: Server, o: Oracle, name: string)
    requires s.configName == Some(name)
    requires Uninstall(s, o, name).reply == Status(true)
    ensures Uninstall(s, o, name).state.configName.None?
    ensures Uninstall(s, o, name).state.binding == Some(o.build(Some(name), NeverInstall).value)
    ensures Uninstall(s, o, name).state.model == s.model
    ensures Uninstall(s, o, name).state.personalities == s.personalities
    ensures forall n :: !Calls(Uninstall(s, o, name).calls, BuildBinding(n, BuilderDefault))
    ensures forall b :: !Calls(Uninstall(s, o, name).calls, BuildModel(b))
    ensures Uninstall(s, o, name).saved == s.autoSave
  {
  }

  /** Uninstalling another binding restores the previous name, rebuilds it and pushes the
      new model to the personalities; the configuration is saved only under auto-save. */
  lemma UninstallOther(s: Server, o: Oracle, name: string)
    requires s.configName != Some(name)
    requires Uninstall(s, o, name).reply == Status(true)
    ensures Uninstall(s, o, name).state.configName == s.configName
    ensures o.build(s.configName, BuilderDefault).Success?
    ensures Uninstall(s, o, name).state.binding == Some(o.build(s.configName, BuilderDefault).value)
    ensures Uninstall(s, o, name).state.model.Some?
    ensures Uninstall(s, o, name).state.model == Some(o.buildModel(o.build(s.configName, BuilderDefault).value).value)
    ensures Uninstall(s, o, name).state.personalities == Remount(s.personalities, Uninstall(s, o, name).state.model)
    ensures AllMountedUse(Uninstall(s, o, name).state.personalities, Uninstall(s, o, name).state.model)
    ensures Uninstall(s, o, name).saved == s.autoSave
  {
  }

  // ----------------------------------------------------------------------------
  // What a raise leaves behind

  /** A raising rebuild of the previous name (line 126) leaves no binding under the
      restored name; a raising model build (line 127) leaves the rebuilt binding bound.
      Either way the model and the personalities are untouched. */
  lemma InstallPartialFailure(s: Server, o: Oracle, name: string)
    requires o.build(Some(name), ForceInstall).Success?
    requires s.configName.Some?
    ensures o.build(s.configName, BuilderDefault).Failure? ==>
              && Install(s, o, name).state == s.(binding := None)
              && Install(s, o, name).reply == Error(o.build(s.configName, BuilderDefault).error)
    ensures o.build(s.configName, BuilderDefault).Success? &&
            o.buildModel(o.build(s.configName, BuilderDefault).value).Failure? ==>
              && Install(s, o, name).state == s.(binding := Some(o.build(s.configName, BuilderDefault).value))
              && Install(s, o, name).reply == Error(o.buildModel(o.build(s.configName, BuilderDefault).value).error)
  {
  }

  /** A raising forced install (line 158) leaves the requested name and no binding; a
      raising rebuild (line 161) leaves the force-installed instance bound under the
      previous name; a raising model build (line 162) leaves the rebuilt binding bound.
      The model and the personalities are untouched in all three. */
  lemma ReinstallPartialFailure(s: Server, o: Oracle, name: string)
    ensures o.build(Some(name), ForceInstall).Failure? ==>
              && Reinstall(s, o, name).state == s.(binding := None, configName := Some(name))
              && Reinstall(s, o, name).reply == Error(o.build(Some(name), ForceInstall).error)
    ensures o.build(Some(name), ForceInstall).Success? && o.build(s.configName, BuilderDefault).Failure? ==>
              && Reinstall(s, o, name).state == s.(binding := Some(o.build(Some(name), ForceInstall).value))
              && Reinstall(s, o, name).reply == Error(o.build(s.configName, BuilderDefault).error)
    ensures o.build(Some(name), ForceInstall).Success? && o.build(s.configName, BuilderDefault).Success? &&
            o.buildModel(o.build(s.configName, BuilderDefault).value).Failure? ==>
              && Reinstall(s, o, name).state == s.(binding := Some(o.build(s.configName, BuilderDefault).value))
              && Reinstall(s, o, name).reply == Error(o.buildModel(o.build(s.configName, BuilderDefault).value).error)
  {
  }

  /** A raising load (line 194) leaves the requested name and no binding; a raising
      uninstall hook (line 195) leaves the requested name with the loaded instance bound;
      a raising rebuild of another previous name (line 199) leaves the uninstalled
      instance bound under the restored name; a raising model build (line 200) leaves the
      rebuilt binding bound with the model and personalities untouched. Nothing is saved. */
  lemma UninstallPartialFailure(s: Server, o: Oracle, name: string)
    ensures o.build(Some(name), NeverInstall).Failure? ==>
              && Uninstall(s, o, name).state == s.(binding := None, configName := Some(name))
              && Uninstall(s, o, name).reply == Error(o.build(Some(name), NeverInstall).error)
    ensures o.build(Some(name), NeverInstall).Success? &&
            o.uninstall(o.build(Some(name), NeverInstall).value).Fail? ==>
              && Uninstall(s, o, name).state ==
                   s.(binding := Some(o.build(Some(name), NeverInstall).value), configName := Some(name))
              && Uninstall(s, o, name).reply == Error(o.uninstall(o.build(Some(name), NeverInstall).value).error)
    ensures o.build(Some(name), NeverInstall).Success? &&
            o.uninstall(o.build(Some(name), NeverInstall).value).Pass? &&
            s.configName != Some(name) && o.build(s.configName, BuilderDefault).Failure? ==>
              && Uninstall(s, o, name).state == s.(binding := Some(o.build(Some(name), NeverInstall).value))
              && Uninstall(s, o, name).reply == Error(o.build(s.configName, BuilderDefault).error)
    ensures o.build(Some(name), NeverInstall).Success? &&
            o.uninstall(o.build(Some(name), NeverInstall).value).Pass? &&
            s.configName != Some(name) && o.build(s.configName, BuilderDefault).Success? &&
            o.buildModel(o.build(s.configName, BuilderDefault).value).Failure? ==>
              && Uninstall(s, o, name).state == s.(binding := Some(o.build(s.configName, BuilderDefault).value))
              && Uninstall(s, o, name).reply == Error(o.buildModel(o.build(s.configName, BuilderDefault).value).error)
    ensures Uninstall(s, o, name).reply.Error? ==> !Uninstall(s, o, name).saved
  {
  }

  // ----------------------------------------------------------------------------
  // Replies

  /** Install, reinstall and uninstall answer {"status": True} exactly when no delegate
      raised, and reload answers None in that case; otherwise each answers with an error. */
  lemma ReplyReportsFailure(s: Server, o: Oracle, name: string)
    ensures Reload(s, o, name).reply == NoBody <==> AllPassed(Reload(s, o, name).calls)
    ensures Install(s, o, name).reply == Status(true) <==> AllPassed(Install(s, o, name).calls)
    ensures Reinstall(s, o, name).reply == Status(true) <==> AllPassed(Reinstall(s, o, name).calls)
    ensures Uninstall(s, o, name).reply == Status(true) <==> AllPassed(Uninstall(s, o, name).calls)
    ensures !AllPassed(Reload(s, o, name).calls) ==> Reload(s, o, name).reply.Error?
    ensures !AllPassed(Install(s, o, name).calls) ==> Install(s, o, name).reply.Error?
    ensures !AllPassed(Reinstall(s, o, name).calls) ==> Reinstall(s, o, name).reply.Error?
    ensures !AllPassed(Uninstall(s, o, name).calls) ==> Uninstall(s, o, name).reply.Error?
  {
  }

  /** Each endpoint's success reply, stated over the delegates themselves: it is given
      exactly when every delegate the source calls on the way answers. */
  lemma RepliesFollowDelegates(s: Server, o: Oracle, name: string)
    ensures Reload(s, o, name).reply == NoBody <==>
              Released(s, o) && o.build(Some(name), InstallIfNecessary).Success?
    ensures Install(s, o, name).reply == Status(true) <==>
              && o.build(Some(name), ForceInstall).Success?
              && (s.configName.Some? ==>
                    && o.build(s.configName, BuilderDefault).Success?
                    && o.buildModel(o.build(s.configName, BuilderDefault).value).Success?)
    ensures Reinstall(s, o, name).reply == Status(true) <==>
              && o.build(Some(name), ForceInstall).Success?
              && o.build(s.configName, BuilderDefault).Success?
              && o.buildModel(o.build(s.configName, BuilderDefault).value).Success?
    ensures Uninstall(s, o, name).reply == Status(true) <==>
              && o.build(Some(name), NeverInstall).Success?
              && o.uninstall(o.build(Some(name), NeverInstall).value).Pass?
              && (s.configName != Some(name) ==>
                    && o.build(s.configName, BuilderDefault).Success?
                    && o.buildModel(o.build(s.configName, BuilderDefault).value).Success?)
    ensures o.build(Some(name), ForceInstall).Failure? ==>
              && Install(s, o, name).reply == Error(o.build(Some(name), ForceInstall).error)
              && Reinstall(s, o, name).reply == Error(o.build(Some(name), ForceInstall).error)
  {
  }
}
