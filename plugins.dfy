/**
 * The post-processing pipeline: every plugin of type `postprocess` with an `on_llm_response`
 * hook is given the current payload in list order, and a result it returns replaces the
 * payload when it is a dict holding `text`. A hook is a partial function: it may raise, return
 * None, or return any value. The context handed to hooks is left abstract as the type `C`.
 */
module Plugins {
  import opened Base
  import opened Json

  /** What a hook call does: it raises, or returns a value (None being `JNull`). */
  datatype HookOutcome = Raised | Returned(value: Json)

  /** `HookFn`: payload, context and plugin config to an outcome. */
  type Hook<!C> = (seq<Field>, C, seq<Field>) -> HookOutcome

  /** `PluginSpec` */
  datatype PluginSpec<!C> = PluginSpec(pluginId: string, pluginType: string, hooks: map<string, Hook<C>>,
                                      config: seq<Field>)

  /** `PluginManager`: the plugins it was built with, never changed afterwards. */
  datatype PluginManager<!C> = PluginManager(plugins: seq<PluginSpec<C>>)

  const HookName: string := "on_llm_response"

  /** A plugin takes part in post-processing: its type is `postprocess` and it has the hook. */
  predicate Applicable<C>(plugin: PluginSpec<C>)
  {
    plugin.pluginType == "postprocess" && HookName in plugin.hooks
  }

  /** A result the pipeline accepts: a dict with a `text` key. */
  predicate Accepted(outcome: HookOutcome)
  {
    outcome.Returned? && outcome.value.JMap? && HasKey(outcome.value.entries, "text")
  }

  /** One turn of the loop: the payload after `plugin` has seen `current`, which is `current`
      itself or an accepted result, holding `text`. */
  function Step<C>(plugin: PluginSpec<C>, current: seq<Field>, ctx: C): (r: seq<Field>)
    ensures !Applicable(plugin) ==> r == current
    ensures r == current || HasKey(r, "text")
  {
    if !Applicable(plugin) then current
    else
      var outcome := plugin.hooks[HookName](current, ctx, plugin.config);
      if Accepted(outcome) then outcome.value.entries else current
  }

  /** The payload after the plugins, in list order, each seeing the previous one's output. It
      is the payload itself or the last accepted result, which holds `text`; and a payload
      holding `text` still holds it after any plugins. */
  function Postprocessed<C>(plugins: seq<PluginSpec<C>>, current: seq<Field>, ctx: C): (r: seq<Field>)
    ensures r == current || HasKey(r, "text")
    ensures HasKey(current, "text") ==> HasKey(r, "text")
  {
    if plugins == [] then current
    else Postprocessed(plugins[1..], Step(plugins[0], current, ctx), ctx)
  }

  /** `PluginManager.apply_postprocess` */
  method ApplyPostprocess<C>(manager: PluginManager<C>, payload: seq<Field>, ctx: C) returns (current: seq<Field>)
    ensures current == Postprocessed(manager.plugins, payload, ctx)
  {
    var plugins := manager.plugins;
    current := payload;
    var k := 0;
    while k < |plugins|
      invariant 0 <= k <= |plugins|
      invariant Postprocessed(plugins[k..], current, ctx) == Postprocessed(plugins, payload, ctx)
    {
      var plugin := plugins[k];
      assert plugins[k..][1..] == plugins[k + 1..];
      k := k + 1;
      if plugin.pluginType != "postprocess" {
        continue;
      }
      if HookName !in plugin.hooks {
        continue;
      }
      var result := plugin.hooks[HookName](current, ctx, plugin.config);
      if result.Raised? {
        continue;
      }
      if result.value.JNull? {
        continue;
      }
      if !result.value.JMap? {
        continue;
      }
      if !HasKey(result.value.entries, "text") {
        continue;
      }
      current := result.value.entries;
    }
  }

  /** A plugin of another type, or one without the hook, leaves the payload as it is. */
  lemma StepSkips<C>(plugin: PluginSpec<C>, current: seq<Field>, ctx: C)
    requires plugin.pluginType != "postprocess" || HookName !in plugin.hooks
    ensures Step(plugin, current, ctx) == current
  {
  }

  /** A hook that raises, returns None, returns a non-dict or a dict without `text` leaves the
      payload as it is; an accepted result replaces it wholesale. */
  lemma StepOutcome<C>(plugin: PluginSpec<C>, current: seq<Field>, ctx: C)
    requires Applicable(plugin)
    ensures var outcome := plugin.hooks[HookName](current, ctx, plugin.config);
      ((outcome.Raised? || outcome.value.JNull? || !outcome.value.JMap? || !HasKey(outcome.value.entries, "text"))
        ==> Step(plugin, current, ctx) == current)
      && (Accepted(outcome) ==> Step(plugin, current, ctx) == outcome.value.entries)
  {
  }

  /** With no applicable plugin, the payload comes back as it was given. */
  lemma {:induction false} NothingApplicable<C>(plugins: seq<PluginSpec<C>>, payload: seq<Field>, ctx: C)
    requires forall k :: 0 <= k < |plugins| ==> !Applicable(plugins[k])
    ensures Postprocessed(plugins, payload, ctx) == payload
  {
    if plugins != [] {
      assert !Applicable(plugins[0]);
      assert forall k :: 0 <= k < |plugins[1..]| ==> plugins[1..][k] == plugins[k + 1];
      NothingApplicable(plugins[1..], payload, ctx);
    }
  }

  /** Running two lists of plugins one after the other is running their concatenation: the
      plugins run in order, each on the output of those before it. */
  lemma {:induction false} PostprocessConcat<C>(first: seq<PluginSpec<C>>, second: seq<PluginSpec<C>>,
                                               payload: seq<Field>, ctx: C)
    ensures Postprocessed(first + second, payload, ctx) == Postprocessed(second, Postprocessed(first, payload, ctx), ctx)
  {
    if first != [] {
      assert (first + second)[1..] == first[1..] + second;
      PostprocessConcat(first[1..], second, Step(first[0], payload, ctx), ctx);
    } else {
      assert first + second == second;
    }
  }

  /** A plugin that does not apply can be dropped from the list without changing the result. */
  lemma SkippedPlugin<C>(plugins: seq<PluginSpec<C>>, k: nat, payload: seq<Field>, ctx: C)
    requires k < |plugins| && !Applicable(plugins[k])
    ensures Postprocessed(plugins, payload, ctx) == Postprocessed(plugins[..k] + plugins[k + 1..], payload, ctx)
  {
    var before := plugins[..k];
    var after := plugins[k + 1..];
    assert plugins == before + ([plugins[k]] + after);
    PostprocessConcat(before, [plugins[k]] + after, payload, ctx);
    PostprocessConcat(before, after, payload, ctx);
    assert ([plugins[k]] + after)[1..] == after;
  }
}
