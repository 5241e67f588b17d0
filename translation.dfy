/**
 * The value-level translation performed by the FunnelEnvy integration
 * (lib/index.js): its two options, the vendor script URL, the three
 * outbound `{event, attributes}` envelopes, and the inbound filter and
 * mapper that turns a vendor "active variation" message into the record
 * tracked as "Variation Activated".
 */
module Translation {
  import opened Wrappers
  import opened JsValues

  /** Opaque traits and properties, forwarded verbatim. */
  type Props = map<string, Value>

  /** The integration's two options. */
  datatype Options = Options(organizationId: string, apiURL: string)

  /** The option defaults: an empty organization id and the vendor's public API endpoint. */
  const DefaultOptions: Options := Options("", "//backstage.funnelenvy.com")

  // ---------------------------------------------------------------------------
  // Script URL
  // ---------------------------------------------------------------------------

  const UrlPrefix: string := "//cdn2.funnelenvy.com/organization/"
  const UrlSuffix: string := "/backstage-client.js"

  /**
   * The CDN template with the organization id substituted for its one `%s`.
   * The id is inserted verbatim and not validated.
   */
  function ScriptUrl(organizationId: string): (url: string)
    ensures |url| == |UrlPrefix| + |organizationId| + |UrlSuffix|
    ensures url[..|UrlPrefix|] == UrlPrefix
    ensures url[|UrlPrefix|..|url| - |UrlSuffix|] == organizationId
    ensures url[|url| - |UrlSuffix|..] == UrlSuffix
  {
    UrlPrefix + organizationId + UrlSuffix
  }

  /** Reads the organization id back out of a script URL; `None` for a URL not of the template's shape. */
  function OrganizationOfUrl(url: string): Option<string>
  {
    if |url| >= |UrlPrefix| + |UrlSuffix|
       && url[..|UrlPrefix|] == UrlPrefix
       && url[|url| - |UrlSuffix|..] == UrlSuffix
    then Some(url[|UrlPrefix|..|url| - |UrlSuffix|])
    else None
  }

  /** Every organization id, the empty one included, yields a URL from which it is recovered unchanged. */
  lemma ScriptUrlRoundTrip(organizationId: string)
    ensures OrganizationOfUrl(ScriptUrl(organizationId)) == Some(organizationId)
  {
  }

  /** Conversely, every URL of the template's shape is the script URL of the id read from it. */
  lemma OrganizationOfUrlRoundTrip(url: string, organizationId: string)
    requires OrganizationOfUrl(url) == Some(organizationId)
    ensures ScriptUrl(organizationId) == url
  {
  }

  /** Distinct organizations load distinct scripts. */
  lemma ScriptUrlInjective(a: string, b: string)
    requires ScriptUrl(a) == ScriptUrl(b)
    ensures a == b
  {
  }

  /** With the default (empty) organization id the URL has an empty path segment. */
  lemma DefaultScriptUrl()
    ensures ScriptUrl(DefaultOptions.organizationId)
            == "//cdn2.funnelenvy.com/organization//backstage-client.js"
  {
  }

  // ---------------------------------------------------------------------------
  // Outbound envelopes
  // ---------------------------------------------------------------------------

  /** The argument of one `push` call on the vendor client. */
  datatype Envelope = Envelope(event: string, attributes: Props)

  const IdentifyEvent: string := "segment.identify"
  const GroupEvent: string := "segment.group"

  /** `identify`: the traits become the individual's attributes. */
  function IdentifyEnvelope(traits: Props): Envelope
  {
    Envelope(IdentifyEvent, map["individual" := Obj(traits)])
  }

  /** `group`: the traits become the account's attributes. */
  function GroupEnvelope(traits: Props): Envelope
  {
    Envelope(GroupEvent, map["account" := Obj(traits)])
  }

  /** `track`: event name and properties are passed through. */
  function TrackEnvelope(event: string, properties: Props): Envelope
  {
    Envelope(event, properties)
  }

  /** The individual traits carried by an identify-shaped envelope. */
  function IndividualTraits(e: Envelope): Option<Props>
  {
    if e.event == IdentifyEvent && e.attributes.Keys == {"individual"} && e.attributes["individual"].Obj?
    then Some(e.attributes["individual"].fields)
    else None
  }

  /** The account traits carried by a group-shaped envelope. */
  function AccountTraits(e: Envelope): Option<Props>
  {
    if e.event == GroupEvent && e.attributes.Keys == {"account"} && e.attributes["account"].Obj?
    then Some(e.attributes["account"].fields)
    else None
  }

  /** An identify envelope carries exactly the traits it was given, and is never read as a group. */
  lemma IdentifyRoundTrip(traits: Props)
    ensures IndividualTraits(IdentifyEnvelope(traits)) == Some(traits)
    ensures AccountTraits(IdentifyEnvelope(traits)) == None
  {
  }

  /** Every identify-shaped envelope is the identify envelope of the traits it carries. */
  lemma IndividualTraitsRoundTrip(e: Envelope, traits: Props)
    requires IndividualTraits(e) == Some(traits)
    ensures IdentifyEnvelope(traits) == e
  {
  }

  /** A group envelope carries exactly the traits it was given, and is never read as an identify. */
  lemma GroupRoundTrip(traits: Props)
    ensures AccountTraits(GroupEnvelope(traits)) == Some(traits)
    ensures IndividualTraits(GroupEnvelope(traits)) == None
  {
  }

  /** Every group-shaped envelope is the group envelope of the traits it carries. */
  lemma AccountTraitsRoundTrip(e: Envelope, traits: Props)
    requires AccountTraits(e) == Some(traits)
    ensures GroupEnvelope(traits) == e
  {
  }

  /** Track loses nothing: the envelope determines the event name and the properties. */
  lemma TrackEnvelopeInjective(e1: string, p1: Props, e2: string, p2: Props)
    requires TrackEnvelope(e1, p1) == TrackEnvelope(e2, p2)
    ensures e1 == e2 && p1 == p2
  {
  }

  /**
   * Track does not reserve the vendor's own event names: a track call named
   * "segment.identify" whose properties have the identify shape pushes the
   * very envelope an identify call would.
   */
  lemma TrackMayImitateIdentify(traits: Props)
    ensures exists event, properties :: TrackEnvelope(event, properties) == IdentifyEnvelope(traits)
  {
    assert TrackEnvelope(IdentifyEvent, map["individual" := Obj(traits)]) == IdentifyEnvelope(traits);
  }

  // ---------------------------------------------------------------------------
  // Vendor client
  // ---------------------------------------------------------------------------

  /**
   * The vendor runtime object `new window.FunnelEnvy({customerId, apiUrl})`.
   * `feBvid` is the visitor id the vendor keeps in its `_fe_bvid` field; the
   * vendor generates it, so the model takes it as given.
   */
  datatype Client = Client(customerId: string, apiUrl: string, feBvid: Value)

  /** The client the load callback constructs from the options. */
  function NewClient(options: Options, feBvid: Value): Client
  {
    Client(options.organizationId, options.apiURL, feBvid)
  }

  /** The global `window.funnelEnvy` as a JavaScript value: `undefined` until the client is built. */
  function SlotValue(vendor: Option<Client>): Value
  {
    match vendor
    case None => Undefined
    case Some(c) => Obj(map["_fe_bvid" := c.feBvid])
  }

  // ---------------------------------------------------------------------------
  // Inbound: the active-variation message
  // ---------------------------------------------------------------------------

  const ActiveVariationEvent: string := "backstage.activeVariation"
  const VariationActivated: string := "Variation Activated"
  const Holdback: string := "holdback"
  const Predicted: string := "predicted"

  /** The guard of `sendActiveVariation`, negated: the message is present and its `event` is exactly the active-variation name. */
  predicate IsActiveVariation(message: Value)
  {
    Truthy(message) && Get(message, "event") == Some(Str(ActiveVariationEvent))
  }

  /** Only an object whose own `event` field is that exact string passes the guard. */
  lemma IsActiveVariationIff(message: Value)
    ensures IsActiveVariation(message) <==>
              message.Obj? && "event" in message.fields && message.fields["event"] == Str(ActiveVariationEvent)
  {
  }

  /** The six-field record tracked as "Variation Activated". */
  datatype Record = Record(
    bvid: Value,
    campaignId: Value,
    campaignName: Value,
    campaignGroup: string,
    variationId: Value,
    variationName: Value)

  /**
   * What one invocation of the handler does: nothing, one track call, or a
   * TypeError raised by reading a property of the nullish value it names.
   */
  datatype Outcome =
    | Ignored
    | Tracked(event: string, properties: Record)
    | Threw(nullish: string)

  /**
   * `sendActiveVariation(model, message)` with the vendor slot `vendor`. The
   * reads happen in the order of the record's fields: the vendor's visitor
   * id, the campaign's slug, name and holdback flag, then the variation's id
   * and name.
   */
  function VariationOutcome(vendor: Option<Client>, model: Value, message: Value): (o: Outcome)
    ensures o.Ignored? <==> !IsActiveVariation(message)
    ensures o.Tracked? ==> o.event == VariationActivated
    ensures o.Tracked? ==> o.properties.campaignGroup in {Holdback, Predicted}
  {
    if !IsActiveVariation(message) then Ignored
    else
      var slot := SlotValue(vendor);
      if Nullish(slot) then Threw("window.funnelEnvy")
      else if Nullish(model) then Threw("model")
      else
        var backstage := Get(model, "backstage").value;
        if Nullish(backstage) then Threw("model.backstage")
        else
          var campaign := Get(backstage, "activeCampaign").value;
          if Nullish(campaign) then Threw("model.backstage.activeCampaign")
          else
            var variation := Get(backstage, "activeVariation").value;
            if Nullish(variation) then Threw("model.backstage.activeVariation")
            else
              Tracked(VariationActivated, Record(
                bvid := Get(slot, "_fe_bvid").value,
                campaignId := Get(campaign, "slug").value,
                campaignName := Get(campaign, "name").value,
                campaignGroup := if Truthy(Get(campaign, "isInHoldback").value) then Holdback else Predicted,
                variationId := Get(variation, "variationId").value,
                variationName := Get(variation, "name").value))
  }

  const CampaignPath: seq<string> := ["backstage", "activeCampaign"]
  const VariationPath: seq<string> := ["backstage", "activeVariation"]

  /**
   * Every nested read the handler makes succeeds: the model, its
   * `backstage`, and the active campaign and variation beneath it are not
   * nullish.
   */
  predicate WellFormedModel(model: Value)
  {
    && At(model, CampaignPath).Some? && !Nullish(At(model, CampaignPath).value)
    && At(model, VariationPath).Some? && !Nullish(At(model, VariationPath).value)
  }

  /** A matching message throws exactly when the vendor slot is unset or the model is not well formed. */
  lemma VariationThrowsIff(vendor: Option<Client>, model: Value, message: Value)
    ensures VariationOutcome(vendor, model, message).Threw? <==>
              IsActiveVariation(message) && (vendor.None? || !WellFormedModel(model))
  {
  }

  /**
   * On a matching message, with the vendor loaded and a well-formed model,
   * the handler tracks one "Variation Activated" record whose fields are the
   * vendor's visitor id, the active campaign's slug and name, the group
   * chosen by the campaign's own holdback flag, and the active variation's
   * id and name.
   */
  lemma VariationRecordFields(vendor: Option<Client>, model: Value, message: Value)
    requires IsActiveVariation(message) && vendor.Some? && WellFormedModel(model)
    ensures var campaign, variation := At(model, CampaignPath).value, At(model, VariationPath).value;
            VariationOutcome(vendor, model, message) == Tracked(VariationActivated, Record(
              bvid := vendor.value.feBvid,
              campaignId := Get(campaign, "slug").value,
              campaignName := Get(campaign, "name").value,
              campaignGroup := if Truthy(Get(campaign, "isInHoldback").value) then Holdback else Predicted,
              variationId := Get(variation, "variationId").value,
              variationName := Get(variation, "name").value))
  {
  }

  /** A flag `isInHoldback` at the top level of the model is never read. */
  lemma TopLevelHoldbackIgnored(vendor: Option<Client>, fields: Props, flag: Value, message: Value)
    ensures VariationOutcome(vendor, Obj(fields["isInHoldback" := flag]), message)
            == VariationOutcome(vendor, Obj(fields), message)
  {
  }

  // ---------------------------------------------------------------------------
  // The scenarios of the integration's own test suite
  // ---------------------------------------------------------------------------

  /** The vendor object of the inbound tests: visitor id "bvid". */
  const TestVendor: Option<Client> := Some(Client("testOrgId", DefaultOptions.apiURL, Str("bvid")))

  /** The model of the inbound tests, with an optional top-level holdback flag. */
  function TestModel(topLevelHoldback: Option<bool>): Value
  {
    var backstage := Obj(map[
      "activeCampaign" := Obj(map["slug" := Str("campaignSlug"), "name" := Str("campaignName")]),
      "activeVariation" := Obj(map["variationId" := Num(123.0), "name" := Str("variationName")])]);
    match topLevelHoldback
    case None => Obj(map["backstage" := backstage])
    case Some(b) => Obj(map["backstage" := backstage, "isInHoldback" := Bool(b)])
  }

  /** A missing message or one with another event name is ignored. */
  lemma MissingOrWrongMessageIgnored()
    ensures VariationOutcome(TestVendor, TestModel(None), Undefined) == Ignored
    ensures VariationOutcome(TestVendor, TestModel(None), Obj(map["event" := Str("wrongMessage")])) == Ignored
  {
  }

  /**
   * A matching message tracks the predicted record, and still does when the
   * model's top level says `isInHoldback: true`.
   */
  lemma TestModelTracksPredicted(topLevelHoldback: Option<bool>)
    ensures VariationOutcome(TestVendor, TestModel(topLevelHoldback), Obj(map["event" := Str(ActiveVariationEvent)]))
            == Tracked(VariationActivated, Record(
                 Str("bvid"), Str("campaignSlug"), Str("campaignName"), Predicted, Num(123.0), Str("variationName")))
  {
  }

  /** A campaign whose own flag is `isInHoldback: true` is tracked in the holdback group. */
  lemma CampaignHoldbackTracked(slug: Value, name: Value, variation: Props, message: Value)
    requires IsActiveVariation(message)
    ensures var campaign := Obj(map["slug" := slug, "name" := name, "isInHoldback" := Bool(true)]);
            var model := Obj(map["backstage" := Obj(map["activeCampaign" := campaign, "activeVariation" := Obj(variation)])]);
            var o := VariationOutcome(TestVendor, model, message);
            o.Tracked? && o.properties.campaignGroup == Holdback
  {
  }
}
