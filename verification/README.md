# lollms binding lifecycle, modelled in Dafny

This project models the binding endpoints of lollms (`lollms/server/endpoints/lollms_binding_infos.py`).
It covers the four lifecycle endpoints, `reload_binding`, `install_binding`, `reinstall_binding` and
`unInstall_binding`. It also covers the settings endpoint `get_active_binding_settings` and the
plain function `set_active_binding_settings`, which has no route of its own.

The server's shared state is one immutable record, `ServerState.Server`. It holds:

- the configured binding name (`config.binding_name`);
- the active binding instance;
- the active model instance;
- the mounted personalities, where each slot may be None and each personality holds a model reference;
- the auto-save flag.

Each endpoint is a pure function. It takes a state and an `Oracle` and returns a `Step`: the new state,
the reply, the trace of delegate calls made in order, and whether the global configuration was saved.

The `Oracle` stands for the delegates whose code is not part of this model: the binding builder, which
receives the configured name and an install option, `build_model`, `destroy_model`, and `uninstall`.
Each delegate either returns an identity or raises. A raise ends the endpoint. Whatever was written
before it stays written, and the reply is `{"status": False, "error": <text>}`.

Modules:

- `Wrappers`: `Option`, `Result` and `Outcome`.
- `ServerState`: the state, the oracle, the call trace, and the personality fan-out `Remount`.
- `Lifecycle`: the four transitions and one lemma per property of each.
- `LifecycleProperties`: invariant preservation, for one transition and for any run of requests, and lemmas that relate transitions to each other.
- `BindingSettings`: JSON values, entry rewriting, the settings reader and the settings writer. `json.loads` is a parameter `parse` that answers None where it would raise.

Behaviours of the code (all line numbers are in `lollms/server/endpoints/lollms_binding_infos.py`) that a reader might not expect, and that the model keeps:

- A failed reload leaves the configured name equal to the requested name. The name is written at line 80, before the `try`, and nothing restores it.
- For a list-typed text value that does not parse to a list, the setter stores a one-element list holding the original text (line 243), not the value the failed parse left behind.
- Install with no configured name drops the binding but keeps the model (lines 122-125), so a model can be left with no binding to own it. `LifecycleProperties.InstallCanOrphanModel` exhibits such a state.
- Reload returns nothing on success. No return follows line 93.

## Model

| member | source | states |
|---|---|---|
| `ServerState.Remount` | lollms/server/endpoints/lollms_binding_infos.py:128-130 | pushing a model reference to the personalities keeps every slot's None-ness and name, and afterwards every mounted personality holds that model |
| `ServerState.RemountFixpoint` | lollms/server/endpoints/lollms_binding_infos.py:128-130 | personalities that all hold `m` already are left unchanged by pushing `m` |
| `ServerState.RemountIdempotent` | lollms/server/endpoints/lollms_binding_infos.py:128-130 | pushing the same model twice is the same as pushing it once |
| `Lifecycle.Reload` | lollms/server/endpoints/lollms_binding_infos.py:77-97 | the trace matches the oracle and stops at the first raise; the reply is None when nothing raised and otherwise the error; the name is always the requested one; auto-save and personality identities are kept; the config is saved exactly on success |
| `Lifecycle.Install` | lollms/server/endpoints/lollms_binding_infos.py:102-135 | the trace matches the oracle and stops at the first raise; the reply is `{"status": True}` when nothing raised and otherwise the error; install never saves the config |
| `Lifecycle.Reinstall` | lollms/server/endpoints/lollms_binding_infos.py:137-171 | the same reply/trace contract as install; reinstall never saves the config |
| `Lifecycle.Uninstall` | lollms/server/endpoints/lollms_binding_infos.py:173-214 | the same reply/trace contract; the config is saved exactly when nothing raised and auto-save is on |
| `Lifecycle.ReloadFailureKeepsName` | lollms/server/endpoints/lollms_binding_infos.py:80-97 | a failed build leaves the requested name configured, no binding, and the builder's error as the reply |
| `Lifecycle.ReloadClearsModels` | lollms/server/endpoints/lollms_binding_infos.py:82-91 | once the old binding is released, the model and every mounted personality's model are None on success and failure alike; on success the binding is the one built |
| `Lifecycle.ReloadDestroyFailure` | lollms/server/endpoints/lollms_binding_infos.py:80-97 | when the destroy hook raises, only the name has changed and no build is attempted |
| `Lifecycle.InstallRestoresName` | lollms/server/endpoints/lollms_binding_infos.py:118-125 | a successful install restores the previous name; with no previous name the binding is None, the model and personalities are untouched, and no model is built |
| `Lifecycle.InstallPropagatesModel` | lollms/server/endpoints/lollms_binding_infos.py:125-130 | with a previous name, success means that name was rebuilt, its model built, and every mounted personality now holds that model |
| `Lifecycle.InstallNeverReleases` | lollms/server/endpoints/lollms_binding_infos.py:118-124 | install calls no destroy hook; a failed forced install leaves the old binding assigned under the new name |
| `Lifecycle.ReinstallAlwaysRebuilds` | lollms/server/endpoints/lollms_binding_infos.py:156-161 | after a successful forced install the previous name is rebuilt even when it is None, and it is configured again |
| `Lifecycle.ReinstallPropagatesModel` | lollms/server/endpoints/lollms_binding_infos.py:156-167 | a successful reinstall restores the name, binds the rebuilt instance, makes the active model the one `build_model` returned for that instance, and pushes exactly that model to every mounted personality |
| `Lifecycle.UninstallActive` | lollms/server/endpoints/lollms_binding_infos.py:192-210 | uninstalling the configured name clears it, rebuilds nothing, leaves the model and personalities alone, leaves the uninstalled instance assigned, and saves only under auto-save |
| `Lifecycle.UninstallOther` | lollms/server/endpoints/lollms_binding_infos.py:192-210 | uninstalling another name restores the previous name, binds its rebuilt instance, makes the active model the one `build_model` returned for that instance, pushes exactly that model to the personalities, and saves only under auto-save |
| `ServerState.RemountLastWins` | lollms/server/endpoints/lollms_binding_infos.py:126-130 | pushing one model and then another leaves the personalities as if only the second had been pushed |
| `Lifecycle.InstallPartialFailure` | lollms/server/endpoints/lollms_binding_infos.py:124-127 | a raising rebuild of the previous name leaves no binding under the restored name; a raising model build leaves the rebuilt binding bound; model and personalities are untouched and the reply carries that error |
| `Lifecycle.ReinstallPartialFailure` | lollms/server/endpoints/lollms_binding_infos.py:152-162 | a raising forced install leaves the requested name and no binding; a raising rebuild leaves the force-installed instance bound under the previous name; a raising model build leaves the rebuilt binding bound; each replies with the error of the delegate that raised |
| `Lifecycle.UninstallPartialFailure` | lollms/server/endpoints/lollms_binding_infos.py:187-200 | a raising load leaves the requested name and no binding; a raising uninstall hook leaves the requested name with the loaded instance bound; a raising rebuild of another name leaves the uninstalled instance bound under the restored name; a raising model build leaves the rebuilt binding bound with model and personalities untouched; each replies with the raised error; a failed uninstall saves nothing |
| `Lifecycle.RepliesFollowDelegates` | lollms/server/endpoints/lollms_binding_infos.py:78-214 | each endpoint's success reply is given exactly when every delegate the source calls on the way answers, stated over the delegates themselves; a raising forced install makes install and reinstall reply with its error |
| `Lifecycle.ReplyReportsFailure` | lollms/server/endpoints/lollms_binding_infos.py:81-214 | each of the four endpoints gives its success reply exactly when no delegate raised, and an error reply otherwise |
| `LifecycleProperties.ReloadPreservesConsistency` | lollms/server/endpoints/lollms_binding_infos.py:84-91 | reload keeps every personality's model None or equal to the active model, on every outcome |
| `LifecycleProperties.InstallPreservesConsistency` | lollms/server/endpoints/lollms_binding_infos.py:118-130 | install keeps that consistency on every outcome |
| `LifecycleProperties.ReinstallPreservesConsistency` | lollms/server/endpoints/lollms_binding_infos.py:152-165 | reinstall keeps that consistency on every outcome |
| `LifecycleProperties.UninstallPreservesConsistency` | lollms/server/endpoints/lollms_binding_infos.py:187-205 | uninstall keeps that consistency on every outcome |
| `LifecycleProperties.InstallCanOrphanModel` | lollms/server/endpoints/lollms_binding_infos.py:122-125 | a concrete state satisfying "no binding implies no model" that a successful install leaves with a model and no binding |
| `LifecycleProperties.ReinstallAgreesWithInstall` | lollms/server/endpoints/lollms_binding_infos.py:118-165 | with a name configured, install and reinstall succeed together, and then they leave the same state after the same calls |
| `LifecycleProperties.UninstallAfterInstallRebuildsActive` | lollms/server/endpoints/lollms_binding_infos.py:118-208 | installing a non-configured binding and then uninstalling it, each request with its own delegates, rebuilds the active binding under the same name: the state is the one the install left except that the binding and model are the new instances the uninstall built, pushed to the same personalities |
| `LifecycleProperties.RunPreservesConsistency` | lollms/server/endpoints/lollms_binding_infos.py:77-214 | over any sequence of requests to the four endpoints served one at a time, each seeing its own delegate behaviour and each succeeding or failing, no personality ends up holding a model other than the active one, none is added or removed, and the auto-save flag is unchanged |
| `BindingSettings.NormaliseEntry` | lollms/server/endpoints/lollms_binding_infos.py:234-243 | a list-typed text value becomes the list it parses to, else a one-element list of the original text; other entries and other keys are unchanged; a missing key the code reads raises KeyError; the result is never list-typed text again |
| `BindingSettings.NormaliseAll` | lollms/server/endpoints/lollms_binding_infos.py:234-243 | the entries are rewritten one by one, keeping length and order; the request fails exactly when some entry does, with the first failing entry's key |
| `BindingSettings.NormaliseEntryIdempotent` | lollms/server/endpoints/lollms_binding_infos.py:235-243 | rewriting a rewritten entry changes nothing |
| `BindingSettings.NormaliseAllIdempotent` | lollms/server/endpoints/lollms_binding_infos.py:234-243 | rewriting a rewritten request changes nothing |
| `BindingSettings.ListTextExamples` | lollms/server/endpoints/lollms_binding_infos.py:235-243 | `"[1,2,3]"` becomes the parsed list; `"7"`, which parses to a number, and unparsable text both become a one-element list of the original text |
| `BindingSettings.GetActiveSettings` | lollms/server/endpoints/lollms_binding_infos.py:218-227 | the template is returned exactly when a binding is active and has a configuration, and it is that binding's template verbatim; otherwise `{}` |
| `BindingSettings.SetActiveSettings` | lollms/server/endpoints/lollms_binding_infos.py:229-254 | without a configurable binding the setter refuses; otherwise it applies exactly the rewritten entries or raises on a missing key, and it saves the global config exactly under auto-save |
| `BindingSettings.NoConfigurableBinding` | lollms/server/endpoints/lollms_binding_infos.py:221-254 | with no binding or no configuration, get answers `{}` and set answers `{"status": False}` |
| `BindingSettings.WriteBackRewritten` | lollms/server/endpoints/lollms_binding_infos.py:229-250 | writing back the entries a write applied applies the same entries |

## Left out

- `list_bindings` (lines 33-74): directory iteration, YAML loading and file reads. It is file-system I/O, and the only logic in it is the filter on the `binding_template` name.
- The binding builder, `build_model`, `destroy_model` and a binding's `uninstall`: `lollms/binding.py` is not part of this model. They are oracle parameters. The oracle is a function of its arguments. Within one endpoint no delegate is asked the same question twice, so this loses nothing per call. Lemmas about several requests in sequence give each request its own oracle, so repeated builds are never assumed to return the same instance.
- `save_config`: modelled only as the `saved` flag of a step. It is assumed never to raise.
- The per-binding `binding_config.config.save_config()`, `update_template` and `settings_updated` calls of the setter: these are opaque. The model records only which entries are handed to `update_template`.
- Install markers on disk, and what installing or uninstalling does to them: these are effects inside the builder.
- `gc.collect`, `del`, and the `ASCIIColors`, `print`, `info`, `success` and `trace_exception` logging: these have no effect on the modelled state.
- FastAPI routing and the pydantic parameter classes: these are transport glue. Request bodies are assumed to be well-formed.
- `BindingSettings.SetActiveSettings`: when a later entry raises KeyError, the source has already rewritten the earlier entries in the caller's list, because it rewrites `data` in place. `KeyMissing` reports only the missing key, not that partial rewrite. The exception propagates to the Python caller.
- `BindingSettings.SetActiveSettings`: assumes every request element is a JSON object. A non-object element would raise a TypeError that is not modelled.
- `json.loads`: an uninterpreted `parse` parameter. JSON numbers keep their literal text.
- `lollms/types.py`: integer enum constants and float generation presets, with no behaviour.
- Concurrency: each endpoint is one atomic transition. The source has no locking, and interleavings are not modelled.
- The truthiness test `if lollmsElfServer.binding:` (line 82) is read as "a binding is assigned". Binding instances are assumed to be truthy.
