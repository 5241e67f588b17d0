/**
 * The stateful side of the FunnelEnvy integration (lib/index.js): the global
 * vendor slot `window.funnelEnvy`, the stream of envelopes pushed onto the
 * vendor client, and the calls made on the host's generic `track` sink.
 * `Step` is the pure specification of one hook; the class `FunnelEnvy`
 * implements the hooks by updating its fields and is proved against `Step`.
 */
module Integration {
  import opened Wrappers
  import opened JsValues
  import opened Translation

  /** The vendor slot, the vendor's push stream, and the host track calls made so far. */
  datatype State = State(vendor: Option<Client>, pushLog: seq<Envelope>, trackLog: seq<(string, Record)>)

  /** A page before the vendor script has loaded: no client, nothing pushed, nothing tracked. */
  const Initial: State := State(None, [], [])

  /** A hook the host or the vendor invokes on the integration. */
  datatype Call =
    | ScriptLoaded(feBvid: Value)                  // the callback run once the vendor script has executed
    | IdentifyCall(traits: Props)
    | GroupCall(traits: Props)
    | TrackCall(event: string, properties: Props)
    | VendorMessage(model: Value, message: Value)  // the vendor invoking the registered listener

  /** The envelopes one call pushes when the vendor client is present. */
  function Encoded(c: Call): seq<Envelope>
  {
    match c
    case IdentifyCall(traits) => [IdentifyEnvelope(traits)]
    case GroupCall(traits) => [GroupEnvelope(traits)]
    case TrackCall(event, properties) => [TrackEnvelope(event, properties)]
    case _ => []
  }

  /** Whether a call is one of the three outbound translations. */
  predicate IsOutbound(c: Call)
  {
    c.IdentifyCall? || c.GroupCall? || c.TrackCall?
  }

  /**
   * The state after one hook. An outbound call without a vendor client
   * throws before pushing, which leaves the state as it was.
   */
  function Step(options: Options, s: State, c: Call): (s': State)
    ensures !c.ScriptLoaded? ==> s'.vendor == s.vendor
    ensures c.ScriptLoaded? ==> s'.vendor == Some(NewClient(options, c.feBvid))
    ensures !IsOutbound(c) ==> s'.pushLog == s.pushLog
    ensures !c.VendorMessage? ==> s'.trackLog == s.trackLog
  {
    match c
    case ScriptLoaded(feBvid) => s.(vendor := Some(NewClient(options, feBvid)))
    case VendorMessage(model, message) =>
      (match VariationOutcome(s.vendor, model, message)
       case Tracked(event, record) => s.(trackLog := s.trackLog + [(event, record)])
       case _ => s)
    case _ => if s.vendor.None? then s else s.(pushLog := s.pushLog + Encoded(c))
  }

  /** An instance of the integration, configured once with its options. */
  class FunnelEnvy {
    const options: Options
    var vendor: Option<Client>
    var pushLog: seq<Envelope>
    var trackLog: seq<(string, Record)>

    /** The state this object holds. */
    function Snapshot(): State
      reads this
    {
      State(vendor, pushLog, trackLog)
    }

    constructor (options: Options)
      ensures this.options == options
      ensures Snapshot() == Initial
    {
      this.options := options;
      vendor := None;
      pushLog := [];
      trackLog := [];
    }

    /** `loaded()`: `!!window.funnelEnvy`, true exactly when the vendor slot is set. */
    function Loaded(): (r: bool)
      reads this
      ensures r <==> vendor.Some?
    {
      Truthy(SlotValue(vendor))
    }

    /**
     * `load`: the script request it issues. The script tag itself and the
     * wait for `loaded()` are not modelled; the callback is `OnScriptLoaded`.
     */
    method Load() returns (url: string)
      ensures url == ScriptUrl(options.organizationId)
      ensures OrganizationOfUrl(url) == Some(options.organizationId)
    {
      url := ScriptUrl(options.organizationId);
      ScriptUrlRoundTrip(options.organizationId);
    }

    /** The load callback: builds the vendor client from the options and stores it in the slot. */
    method OnScriptLoaded(feBvid: Value)
      modifies this
      ensures vendor == Some(Client(options.organizationId, options.apiURL, feBvid))
      ensures Loaded()
      ensures pushLog == old(pushLog) && trackLog == old(trackLog)
      ensures Snapshot() == Step(options, old(Snapshot()), ScriptLoaded(feBvid))
    {
      vendor := Some(NewClient(options, feBvid));
    }

    /** `identify`: pushes one envelope carrying the traits as individual attributes. */
    method Identify(traits: Props)
      requires vendor.Some?
      modifies this
      ensures pushLog == old(pushLog) + [IdentifyEnvelope(traits)]
      ensures IndividualTraits(pushLog[|pushLog| - 1]) == Some(traits)
      ensures vendor == old(vendor) && trackLog == old(trackLog)
      ensures Snapshot() == Step(options, old(Snapshot()), IdentifyCall(traits))
    {
      pushLog := pushLog + [IdentifyEnvelope(traits)];
      IdentifyRoundTrip(traits);
    }

    /** `group`: pushes one envelope carrying the traits as account attributes. */
    method Group(traits: Props)
      requires vendor.Some?
      modifies this
      ensures pushLog == old(pushLog) + [GroupEnvelope(traits)]
      ensures AccountTraits(pushLog[|pushLog| - 1]) == Some(traits)
      ensures vendor == old(vendor) && trackLog == old(trackLog)
      ensures Snapshot() == Step(options, old(Snapshot()), GroupCall(traits))
    {
      pushLog := pushLog + [GroupEnvelope(traits)];
      GroupRoundTrip(traits);
    }

    /** `track`: pushes one envelope with the event name and properties unchanged. */
    method Track(event: string, properties: Props)
      requires vendor.Some?
      modifies this
      ensures pushLog == old(pushLog) + [Envelope(event, properties)]
      ensures vendor == old(vendor) && trackLog == old(trackLog)
      ensures Snapshot() == Step(options, old(Snapshot()), TrackCall(event, properties))
    {
      pushLog := pushLog + [TrackEnvelope(event, properties)];
    }

    /**
     * `sendActiveVariation(model, message)`: after a matching message, one
     * "Variation Activated" call on the host's track sink; otherwise no
     * call, either because the message is filtered out or because a nested
     * read threw.
     */
    method SendActiveVariation(model: Value, message: Value) returns (outcome: Outcome)
      modifies this
      ensures outcome == VariationOutcome(vendor, model, message)
      ensures !IsActiveVariation(message) ==> outcome == Ignored && trackLog == old(trackLog)
      ensures outcome.Tracked? ==> trackLog == old(trackLog) + [(VariationActivated, outcome.properties)]
      ensures !outcome.Tracked? ==> trackLog == old(trackLog)
      ensures vendor == old(vendor) && pushLog == old(pushLog)
      ensures Snapshot() == Step(options, old(Snapshot()), VendorMessage(model, message))
    {
      outcome := VariationOutcome(vendor, model, message);
      if outcome.Tracked? {
        trackLog := trackLog + [(outcome.event, outcome.properties)];
      }
    }
  }
}
