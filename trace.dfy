/**
 * The integration over a whole page lifetime: a sequence of hooks applied
 * one after another by `Step`, and what the sequence as a whole pushes onto
 * the vendor client and sends to the host's track sink.
 */
module Trace {
  import opened Wrappers
  import opened JsValues
  import opened Translation
  import opened Integration

  /** The state after the calls, in order. */
  function Run(options: Options, s: State, calls: seq<Call>): State
    decreases |calls|
  {
    if calls == [] then s else Run(options, Step(options, s, calls[0]), calls[1..])
  }

  /** The envelopes of the outbound calls, in call order. */
  function Outbound(calls: seq<Call>): seq<Envelope>
    decreases |calls|
  {
    if calls == [] then [] else Encoded(calls[0]) + Outbound(calls[1..])
  }

  /** The number of vendor messages that pass the active-variation guard. */
  function Activations(calls: seq<Call>): nat
    decreases |calls|
  {
    if calls == [] then 0
    else (if calls[0].VendorMessage? && IsActiveVariation(calls[0].message) then 1 else 0) + Activations(calls[1..])
  }

  /** Whether every vendor message among the calls carries a well-formed model. */
  predicate WellFormedMessages(calls: seq<Call>)
  {
    forall i :: 0 <= i < |calls| && calls[i].VendorMessage? ==> WellFormedModel(calls[i].model)
  }

  /** Once the vendor slot is set it stays set: no hook clears it. */
  lemma {:induction false} StaysLoaded(options: Options, s: State, calls: seq<Call>)
    requires s.vendor.Some?
    ensures Run(options, s, calls).vendor.Some?
    decreases |calls|
  {
    if calls != [] {
      StaysLoaded(options, Step(options, s, calls[0]), calls[1..]);
    }
  }

  /**
   * Once the vendor is loaded, each outbound call pushes exactly its one
   * envelope, in call order, and nothing else is pushed.
   */
  lemma {:induction false} PushLogOfRun(options: Options, s: State, calls: seq<Call>)
    requires s.vendor.Some?
    ensures Run(options, s, calls).pushLog == s.pushLog + Outbound(calls)
    decreases |calls|
  {
    if calls != [] {
      var s' := Step(options, s, calls[0]);
      assert s'.pushLog == s.pushLog + Encoded(calls[0]);
      PushLogOfRun(options, s', calls[1..]);
      assert s.pushLog + Encoded(calls[0]) + Outbound(calls[1..]) == s.pushLog + Outbound(calls);
    }
  }

  /** Before the load callback has run nothing reaches the vendor. */
  lemma {:induction false} NothingPushedBeforeLoad(options: Options, s: State, calls: seq<Call>)
    requires s.vendor.None?
    requires forall i :: 0 <= i < |calls| ==> !calls[i].ScriptLoaded?
    ensures Run(options, s, calls).pushLog == s.pushLog
    ensures Run(options, s, calls).vendor.None?
    decreases |calls|
  {
    if calls != [] {
      assert !calls[0].ScriptLoaded?;
      NothingPushedBeforeLoad(options, Step(options, s, calls[0]), calls[1..]);
    }
  }

  /**
   * The host's track sink only ever receives "Variation Activated": earlier
   * calls are kept, and every call the run adds has that name.
   */
  lemma {:induction false} OnlyVariationsTracked(options: Options, s: State, calls: seq<Call>)
    ensures var r := Run(options, s, calls);
            |s.trackLog| <= |r.trackLog| && r.trackLog[..|s.trackLog|] == s.trackLog
            && forall i :: |s.trackLog| <= i < |r.trackLog| ==> r.trackLog[i].0 == VariationActivated
    decreases |calls|
  {
    if calls != [] {
      var s' := Step(options, s, calls[0]);
      assert |s.trackLog| <= |s'.trackLog| && s'.trackLog[..|s.trackLog|] == s.trackLog;
      assert forall i :: |s.trackLog| <= i < |s'.trackLog| ==> s'.trackLog[i].0 == VariationActivated;
      OnlyVariationsTracked(options, s', calls[1..]);
      var r := Run(options, s', calls[1..]);
      assert r.trackLog[..|s.trackLog|] == r.trackLog[..|s'.trackLog|][..|s.trackLog|];
    }
  }

  /**
   * With the vendor loaded and well-formed models, the host's track sink is
   * called exactly once per message that passes the guard, and never for
   * any other hook.
   */
  lemma {:induction false} TrackCountOfRun(options: Options, s: State, calls: seq<Call>)
    requires s.vendor.Some?
    requires WellFormedMessages(calls)
    ensures |Run(options, s, calls).trackLog| == |s.trackLog| + Activations(calls)
    decreases |calls|
  {
    if calls != [] {
      var c := calls[0];
      var s' := Step(options, s, c);
      if c.VendorMessage? {
        VariationThrowsIff(s.vendor, c.model, c.message);
      }
      assert |s'.trackLog| == |s.trackLog| + (if c.VendorMessage? && IsActiveVariation(c.message) then 1 else 0);
      assert WellFormedMessages(calls[1..]) by {
        forall i | 0 <= i < |calls[1..]| && calls[1..][i].VendorMessage?
          ensures WellFormedModel(calls[1..][i].model)
        {
          assert calls[1..][i] == calls[i + 1];
        }
      }
      TrackCountOfRun(options, s', calls[1..]);
    }
  }

  /**
   * From a fresh page: after the load callback the vendor holds the client
   * built from the options, and the following outbound calls push exactly
   * their envelopes.
   */
  lemma ReadyThenOutbound(options: Options, feBvid: Value, calls: seq<Call>)
    requires forall i :: 0 <= i < |calls| ==> IsOutbound(calls[i])
    ensures Run(options, Initial, [ScriptLoaded(feBvid)] + calls).pushLog == Outbound(calls)
    ensures Run(options, Initial, [ScriptLoaded(feBvid)] + calls).vendor == Some(NewClient(options, feBvid))
  {
    var s := Step(options, Initial, ScriptLoaded(feBvid));
    assert ([ScriptLoaded(feBvid)] + calls)[1..] == calls;
    PushLogOfRun(options, s, calls);
    VendorOfOutboundRun(options, s, calls);
  }

  /** Outbound calls leave the vendor slot as it is. */
  lemma {:induction false} VendorOfOutboundRun(options: Options, s: State, calls: seq<Call>)
    requires forall i :: 0 <= i < |calls| ==> IsOutbound(calls[i])
    ensures Run(options, s, calls).vendor == s.vendor
    decreases |calls|
  {
    if calls != [] {
      assert IsOutbound(calls[0]);
      VendorOfOutboundRun(options, Step(options, s, calls[0]), calls[1..]);
    }
  }
}
