/**
  What the webhooks of a workspace carry. A pass brings the CA bundle and the ports it has read only into a
  webhook configuration that is missing; one that exists keeps what the pass that created it had read.
*/
module Deliveries {
  import opened Wrappers
  import opened ObjectStore
  import opened Manifests
  import opened ClusterManagers
  import opened Pipeline
  import opened Causality

  /** Step `h` of a pass over the webhooks succeeds in applying the next one. */
  ghost predicate HooksOne(ss: seq<State>, ls: seq<Label>, h: nat) {
    && h < |ls| && h + 1 < |ss| && ls[h].ManagerHook? && ss[h].manager.Hooking? && ss[h].manager.plan.Proceed?
    && var m := ss[h].manager;
       m.next < |m.ms| && ApplyInside(ss[h].clusters, m.plan.id, m.ms[m.next], ls[h].fate).ok
  }

  /** What a pass brings is there afterwards exactly if the configuration was missing or already the same. */
  lemma PassDeliversIff(ss: seq<State>, ls: seq<Label>, h: nat) returns (r: Reads)
    requires Run(ss, ls) && HooksOne(ss, ls, h)
    ensures HooksSince(ss, ls, r, h, ss[h].manager)
    ensures var m := ss[h].manager;
      var read := WebhooksRead(ss, ls, m.manager, m.plan, r)[m.next];
      var before, after := Inside(ss[h].clusters, m.plan.id), Inside(ss[h + 1].clusters, m.plan.id);
      && read.Manifest? && read.key in after
      && (after[read.key] == read.body <==> read.key !in before || before[read.key] == read.body)
  {
    r := HookingRead(ss, ls, h);
    assert StepAt(ss, ls, h);
    var m := ss[h].manager;
    RenderedIff(Inside(ss[h].clusters, m.plan.id), m.ms[m.next], ls[h].fate);
  }

  ghost predicate HasWebhook(s: State, id: string, key: Key) {
    key in Inside(s.clusters, id) && Inside(s.clusters, id)[key].WebhookBody?
  }

  /** One step neither rewrites a webhook nor brings one along, unless it applies one that was missing. */
  lemma WebhookStep(s: State, view: State, l: Label, id: string, key: Key)
    requires Enabled(s, view, l) && !l.Environment? && HasWebhook(Next(s, view, l), id, key)
    ensures var body := Inside(Next(s, view, l).clusters, id)[key];
      || (HasWebhook(s, id, key) && Inside(s.clusters, id)[key] == body)
      || (&& l.ManagerHook? && s.manager.plan.id == id && key !in Inside(s.clusters, id)
          && s.manager.ms[s.manager.next] == Manifest(key, body)
          && ApplyInside(s.clusters, id, s.manager.ms[s.manager.next], l.fate).ok)
  {
    if l.ManagerHook? && s.manager.plan.id == id {
      ApplyOneKeeps(Inside(s.clusters, id), s.manager.ms[s.manager.next], l.fate);
    }
  }

  /** The step that created a webhook: it found none, and applied it. */
  ghost predicate CreatesHook(ss: seq<State>, ls: seq<Label>, id: string, key: Key, body: Body, c: nat) {
    && HooksOne(ss, ls, c) && ss[c].manager.plan.id == id && key !in Inside(ss[c].clusters, id)
    && ss[c].manager.ms[ss[c].manager.next] == Manifest(key, body)
  }

  /** Nobody else configures this webhook in this cluster, though they may delete it. */
  ghost predicate HookLeft(ss: seq<State>, ls: seq<Label>, id: string, key: Key) {
    && Run(ss, ls)
    && forall k: nat | k < |ls| && ls[k].Environment? && HasWebhook(ss[k + 1], id, key) ::
         HasWebhook(ss[k], id, key) && Inside(ss[k].clusters, id)[key] == Inside(ss[k + 1].clusters, id)[key]
  }

  lemma WebhookBefore(ss: seq<State>, ls: seq<Label>, id: string, key: Key, k: nat)
    requires HookLeft(ss, ls, id, key) && k < |ls| && HasWebhook(ss[k + 1], id, key)
    ensures var body := Inside(ss[k + 1].clusters, id)[key];
      (HasWebhook(ss[k], id, key) && Inside(ss[k].clusters, id)[key] == body) || CreatesHook(ss, ls, id, key, body, k)
  {
    assert StepAt(ss, ls, k);
    if !ls[k].Environment? {
      WebhookStep(ss[k], ss[Seen(ls[k])], ls[k], id, key);
    }
  }

  /** A webhook was there as it is when the process started, or a pass created it as it is; nothing ever rewrites it. */
  lemma {:induction false} WebhookOrigin(ss: seq<State>, ls: seq<Label>, id: string, key: Key, k: nat) returns (c: Option<nat>)
    requires HookLeft(ss, ls, id, key) && k < |ss| && HasWebhook(ss[k], id, key)
    ensures var body := Inside(ss[k].clusters, id)[key];
      match c
      case None => HasWebhook(ss[0], id, key) && Inside(ss[0].clusters, id)[key] == body
      case Some(c) => c < k && CreatesHook(ss, ls, id, key, body, c)
  {
    if k == 0 {
      c := None;
    } else {
      WebhookBefore(ss, ls, id, key, k - 1);
      if HasWebhook(ss[k - 1], id, key) && Inside(ss[k - 1].clusters, id)[key] == Inside(ss[k].clusters, id)[key] {
        c := WebhookOrigin(ss, ls, id, key, k - 1);
      } else {
        c := Some(k - 1);
      }
    }
  }

  /** Where a pass read the service that a webhook calls. */
  function ServiceRead(r: Reads, toWork: bool): nat {
    if toWork then r.work else r.registration
  }

  /** The webhook is what the pass behind `r` rendered: its own service's port, and the CA bundle, as they were read. */
  ghost predicate CarriesRead(ss: seq<State>, ls: seq<Label>, manager: string, plan: Plan, r: Reads, w: Webhook, body: Body)
    requires InputsRead(ss, ls, manager, plan, r)
  {
    var at := ServiceRead(r, w.toWork);
    && body.WebhookBody?
    && Some(body.caBundle) == ss[r.bundle].store[CaBundle(manager)].bundle
    && ServiceThere(ss[at].store, manager, w.toWork) && body.port == ss[at].store[ServiceKey(manager, w.toWork)].nodePort
    && body.host == (if w.toWork then ss[r.work].hosts.work else ss[r.work].hosts.registration)
  }

  lemma CreatedAsRead(ss: seq<State>, ls: seq<Label>, id: string, i: nat, body: Body, c: nat) returns (r: Reads)
    requires Run(ss, ls) && i < |WEBHOOKS| && CreatesHook(ss, ls, id, WEBHOOKS[i].key, body, c)
    ensures HooksSince(ss, ls, r, c, ss[c].manager)
    ensures CarriesRead(ss, ls, ss[c].manager.manager, ss[c].manager.plan, r, WEBHOOKS[i], body)
  {
    r := HookingRead(ss, ls, c);
    WebhookIndexUnique(i, ss[c].manager.next);
  }

  /** At any time a webhook carries the CA bundle, and its service's port, that the pass which created it had read. */
  lemma WebhookCarriesItsRead(ss: seq<State>, ls: seq<Label>, id: string, i: nat, k: nat) returns (c: nat, r: Reads)
    requires i < |WEBHOOKS| && HookLeft(ss, ls, id, WEBHOOKS[i].key) && !HasWebhook(ss[0], id, WEBHOOKS[i].key)
    requires k < |ss| && HasWebhook(ss[k], id, WEBHOOKS[i].key)
    ensures var body := Inside(ss[k].clusters, id)[WEBHOOKS[i].key];
      && c < k && CreatesHook(ss, ls, id, WEBHOOKS[i].key, body, c) && HooksSince(ss, ls, r, c, ss[c].manager)
      && CarriesRead(ss, ls, ss[c].manager.manager, ss[c].manager.plan, r, WEBHOOKS[i], body)
  {
    var created := WebhookOrigin(ss, ls, id, WEBHOOKS[i].key, k);
    c := created.value;
    r := CreatedAsRead(ss, ls, id, i, Inside(ss[k].clusters, id)[WEBHOOKS[i].key], c);
  }
}
