# FunnelEnvy analytics integration — Dafny model

This project models the translation layer of the FunnelEnvy integration for a
client-side analytics dispatch library. The integration:

- loads the vendor's script from a per-organization CDN URL;
- builds the vendor client into the global slot `window.funnelEnvy` once the
  script has run (`loaded()` reports whether the slot is set);
- translates the host's `identify`, `group` and `track` calls into the
  vendor's `{event, attributes}` envelopes, pushing one per call;
- filters the vendor's listener messages, turning each "active variation"
  message into one `"Variation Activated"` call on the host's `track` sink.

Modules:

- `Wrappers` (wrappers.dfy): `Option`.
- `JsValues` (js_values.dfy): the JavaScript semantics the adapter relies on.
  This covers values, truthiness, and property reads (`base.key`), which throw
  a TypeError on `undefined` or `null`.
- `Translation` (translation.dfy): the pure part of lib/index.js. It holds the
  two options and their defaults, `ScriptUrl` with its inverse
  `OrganizationOfUrl`, the three envelopes with the readers that recover their
  traits, and `VariationOutcome`. `VariationOutcome` is the inbound guard and
  mapper as a total function: the message is ignored, tracked, or it throws
  and the outcome names the nullish value that was read.
- `Integration` (integration.dfy): the state of a page. `Step` is the pure
  specification of one hook. The class `FunnelEnvy` holds the options, the
  vendor slot (`Option<Client>`), the vendor's push stream (`pushLog`) and the
  host track calls (`trackLog`). The page-global `window.funnelEnvy` is held
  by the instance, so the model describes one instance per page, created while
  the slot is unset. Each of its state-changing methods is proved to perform
  exactly `Step`; `Load` changes nothing and only returns the URL it requests.
- `Trace` (trace.dfy): a sequence of hooks over a page lifetime, with
  induction lemmas about what the whole sequence pushes and tracks.

Points the model takes from the code:

- The variation's name is read from `activeVariation.name`
  (lib/index.js:139); no `variationName` field is read.
- The adapter pushes the traits it is given unchanged (lib/index.js:88-91,
  100-103). The `id` the tests expect in those traits is added by the host.
- The holdback flag is read only from `activeCampaign.isInHoldback`. That is
  why the test that sets `isInHoldback` on the model's top level still expects
  `"predicted"`.

## Model

| member | source | states |
|---|---|---|
| `Translation.ScriptUrl` | lib/index.js:55-58 | the URL is the fixed CDN prefix, then the organization id verbatim, then the fixed suffix; the length adds up |
| `Translation.ScriptUrlRoundTrip` | lib/index.js:55-58 | every id, the empty one included, is read back unchanged from its URL |
| `Translation.OrganizationOfUrlRoundTrip` | lib/index.js:55-58 | every URL of the template's shape is the script URL of the id read from it |
| `Translation.ScriptUrlInjective` | lib/index.js:55-58 | distinct organization ids give distinct script URLs |
| `Translation.DefaultScriptUrl` | lib/index.js:20 | the default empty organization id is not validated and still yields a URL, with an empty path segment |
| `Translation.IdentifyRoundTrip` | lib/index.js:87-93 | the identify envelope carries exactly the given traits as `individual`, and is not group-shaped |
| `Translation.IndividualTraitsRoundTrip` | lib/index.js:89-92 | every identify-shaped envelope is the identify envelope of the traits it carries |
| `Translation.GroupRoundTrip` | lib/index.js:99-105 | the group envelope carries exactly the given traits as `account`, and is not identify-shaped |
| `Translation.AccountTraitsRoundTrip` | lib/index.js:101-104 | every group-shaped envelope is the group envelope of the traits it carries |
| `Translation.TrackEnvelopeInjective` | lib/index.js:112-117 | the track envelope determines the event name and the properties: nothing is dropped or changed |
| `Translation.TrackMayImitateIdentify` | lib/index.js:112-117 | no vendor event name is reserved: some track call pushes the same envelope as any given identify call |
| `Translation.IsActiveVariationIff` | lib/index.js:126-128 | the guard passes exactly for an object whose `event` field is exactly the string `"backstage.activeVariation"` |
| `Translation.VariationOutcome` | lib/index.js:124-143 | the handler does nothing exactly when the guard rejects; when it tracks, the name is `"Variation Activated"` and the group is `"holdback"` or `"predicted"` |
| `Translation.VariationThrowsIff` | lib/index.js:131-140 | a matching message throws exactly when the vendor slot is unset or one of model, backstage, active campaign or active variation is nullish |
| `Translation.VariationRecordFields` | lib/index.js:131-143 | for a loaded vendor and a well-formed model, one record is tracked: the vendor's `_fe_bvid`, the campaign's slug and name, `"holdback"` exactly when the campaign's `isInHoldback` is truthy (else `"predicted"`), and the variation's id and name |
| `Translation.TopLevelHoldbackIgnored` | lib/index.js:135-137 | setting `isInHoldback` on the model's top level never changes the outcome |
| `Translation.MissingOrWrongMessageIgnored` | test/index.test.js:219-228 | a missing message and a message named `"wrongMessage"` are both ignored |
| `Translation.TestModelTracksPredicted` | test/index.test.js:230-256 | the test model tracks the predicted record, with or without a top-level holdback flag |
| `Translation.CampaignHoldbackTracked` | lib/index.js:135-137 | a campaign whose own `isInHoldback` is true is tracked in the holdback group |
| `Integration.Step` | lib/index.js:61-143 | only the load callback writes the vendor slot, and it writes the client built from the options; only outbound calls push; only vendor messages track |
| `Integration.FunnelEnvy.constructor` | lib/index.js:16-21 | a new instance on a fresh page (slot unset) keeps its options, has no vendor client, and has pushed and tracked nothing |
| `Integration.FunnelEnvy.Loaded` | lib/index.js:44-46 | `!!window.funnelEnvy` holds exactly when the vendor slot is set |
| `Integration.FunnelEnvy.Load` | lib/index.js:54-58 | the script requested is the template URL of the configured organization id, and that id is recovered from it |
| `Integration.FunnelEnvy.OnScriptLoaded` | lib/index.js:61-66 | the slot becomes the client built from `{customerId: organizationId, apiUrl: apiURL}`, `loaded()` becomes true, and nothing else changes |
| `Integration.FunnelEnvy.Identify` | lib/index.js:87-93 | exactly one `segment.identify` envelope with the traits as `individual` is appended; nothing else changes |
| `Integration.FunnelEnvy.Group` | lib/index.js:99-105 | exactly one `segment.group` envelope with the traits as `account` is appended; nothing else changes |
| `Integration.FunnelEnvy.Track` | lib/index.js:112-117 | exactly one envelope with the event name and the properties unchanged is appended; nothing else changes |
| `Integration.FunnelEnvy.SendActiveVariation` | lib/index.js:124-143 | a rejected message leaves the track log unchanged; a tracked outcome appends exactly one `"Variation Activated"` call; nothing is pushed |
| `Trace.StaysLoaded` | lib/index.js:61-66 | once the vendor slot is set, no sequence of hooks clears it |
| `Trace.PushLogOfRun` | lib/index.js:87-117 | with the vendor loaded, a sequence of hooks pushes exactly the envelopes of its outbound calls, in order |
| `Trace.NothingPushedBeforeLoad` | lib/index.js:87-117 | before the load callback runs, no hook pushes anything and the slot stays unset |
| `Trace.OnlyVariationsTracked` | lib/index.js:143 | earlier track calls are kept, and every track call a sequence of hooks adds is named `"Variation Activated"` |
| `Trace.TrackCountOfRun` | lib/index.js:124-143 | with the vendor loaded and well-formed models, the track sink is called once per message that passes the guard and never otherwise |
| `Trace.ReadyThenOutbound` | lib/index.js:54-117 | from a fresh page, after the load callback the slot holds the client built from the options and the outbound calls that follow push exactly their envelopes |
| `Trace.VendorOfOutboundRun` | lib/index.js:87-117 | outbound calls never change the vendor slot |

## Left out

- Script-tag injection (`loadFunnelEnvyScript`, lib/index.js:77-81) is browser DOM I/O. The callback it runs is modelled as `OnScriptLoaded`.
- The polling wait `when(this.loaded, done)` and the `ready()` signal (lib/index.js:28-36, 68) are asynchronous host behaviour. The host's "no outbound call before ready" ordering appears only as the requires of the three outbound methods.
- Listener registration with the vendor (`addListener`, lib/index.js:30-33) is a foreign call. Vendor messages enter the model as `VendorMessage` calls.
- The `this` binding of the handler: lib/index.js:32 registers `self.sendActiveVariation` unbound, and under `"use strict"` (lib/index.js:1) a plain call runs it with `this` undefined, while a call on the vendor object runs it with a `this` that has no `analytics` field; either way `this.analytics.track` (lib/index.js:143) would throw after the record is built. The model assumes the handler runs as a method of the instance, so `Integration.FunnelEnvy.SendActiveVariation`, `Integration.Step` and `Trace.TrackCountOfRun` describe that call only.
- The `integration(...)` builder, the `global`/`assumesPageview`/`readyOnLoad` settings and the host's option mechanism are host behaviour. Only the two option defaults are modelled, as `DefaultOptions`.
- The host adding `id` to traits, and the host forwarding its own `track("Variation Activated", …)` to its integrations, are host behaviour.
- The vendor client itself is opaque. `push` is modelled as appending to `pushLog`, and the visitor id `_fe_bvid` is a parameter of the load callback, never generated.
- `@segment/fmt` is not part of this model. Its `%s` is taken to insert a string option verbatim; non-string option values are not modelled.
- The page-global `window.funnelEnvy` is held by the instance: the model assumes one instance per page, created while the slot is unset. A second instance, or one created after the slot was set (as the tests do before `initialize`), would see a client its constructor does not.
- The global slot is an `Option<Client>`. Other scripts writing arbitrary values to `window.funnelEnvy` are not modelled, so `loaded()` is stated for "unset" versus "client present".
- JavaScript values leave out functions, symbols and `NaN`, and properties inherited from built-in prototypes. None of the keys the adapter reads is such a property.
- Integration.FunnelEnvy.Identify: requires the vendor slot to be set, as the host's ordering guarantees. Without a client the source throws before pushing, which `Integration.Step` models as no change.
- Integration.FunnelEnvy.Group: requires the vendor slot to be set, for the same reason as Identify.
- Integration.FunnelEnvy.Track: requires the vendor slot to be set, for the same reason as Identify.
- karma.conf.js is test-runner configuration. test/index.test.js is not modelled itself; its scenarios are restated as lemmas.
