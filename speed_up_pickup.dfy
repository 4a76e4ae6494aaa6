/**
 * SpeedUpPickUp: a pickup that lives LiveTime seconds from its start, is
 * removed by its owner when that time is up (an unconnected copy only hides
 * itself), grants a speed buff to an element that touches it on the
 * owner, and replicates its start time.
 */
module Pickups {
  import opened Engine

  /** `SpeedUpPickUp.LiveTime`, the pickup's lifetime in seconds. */
  const LiveTime: real := 10.0

  const ElementTag := "Element"
  const AddSpeedWithTimeRpc := "AddSpeedWithTime"
  // Arguments of the buff call; their values live in a Constant class that is not part of this model.
  const SpeedUpDeltaArg := ConstantArg("SpeedUpPickUpSpeedUpDelta")
  const SpeedUpTimeArg := ConstantArg("SpeedUpEffectTime")

  /** The fields of a pickup that change: its start time and whether it is drawn and collides. */
  datatype PickupState = PickupState(initiateTime: real, rendererEnabled: bool, colliderEnabled: bool)

  datatype Outcome = Outcome(state: PickupState, effects: seq<Effect>)

  datatype ReadOutcome = ReadOutcome(state: PickupState, rest: seq<StreamValue>, ok: bool)

  /** The lifetime has run out. */
  predicate Expired(s: PickupState, now: real)
  {
    s.initiateTime + LiveTime <= now
  }

  /** HideSelf: stop drawing the pickup and stop it colliding. */
  function Hidden(s: PickupState): PickupState
  {
    s.(rendererEnabled := false, colliderEnabled := false)
  }

  /** Removing the pickup everywhere: its network object, then the local GameObject. */
  const SelfDestroy: seq<Effect> := [NetDestroy(ThisObject), LocalDestroy(ThisObject)]

  /**
   * Update: a connected copy that is not the owner does nothing; once the
   * lifetime is up, the connected owner destroys the pickup and any other
   * copy (so one that is not connected) hides it.
   */
  function UpdateRule(s: PickupState, isMine: bool, connected: bool, now: real): (r: Outcome)
    ensures !isMine && connected ==> r == Outcome(s, [])
    ensures !Expired(s, now) ==> r == Outcome(s, [])
    ensures Expired(s, now) && isMine && connected ==> r == Outcome(s, SelfDestroy)
    ensures Expired(s, now) && !connected ==> r == Outcome(Hidden(s), [])
    // hiding happens only off the network, and never together with a destroy
    ensures r.state != s ==> !connected && r.effects == []
    ensures r.state.initiateTime == s.initiateTime
  {
    if !isMine && connected then Outcome(s, [])
    else if Expired(s, now) then
      if isMine && connected then Outcome(s, SelfDestroy)
      else Outcome(Hidden(s), [])
    else Outcome(s, [])
  }

  /**
   * OnTriggerEnter2D: an element touching the owner's connected pickup gets
   * one buff call on its own view, and the pickup removes itself; any other
   * touch does nothing.
   */
  function TouchRule(isMine: bool, connected: bool, obj: Collider): (r: seq<Effect>)
    ensures r != [] <==> obj.tag == ElementTag && isMine && connected
    ensures r != [] ==>
      r == [Rpc(AddSpeedWithTimeRpc, All, HitObject(obj), [SpeedUpDeltaArg, SpeedUpTimeArg])] + SelfDestroy
  {
    if obj.tag == ElementTag && isMine && connected then
      [Rpc(AddSpeedWithTimeRpc, All, HitObject(obj), [SpeedUpDeltaArg, SpeedUpTimeArg]),
       NetDestroy(ThisObject), LocalDestroy(ThisObject)]
    else []
  }

  /** The snapshot the owner writes: the start time alone. */
  function WritePickupView(s: PickupState): seq<StreamValue>
  {
    [FloatValue(s.initiateTime)]
  }

  /** The observer's read: a missing or non-float item throws and nothing changes. */
  function ReadPickupView(s: PickupState, stream: seq<StreamValue>): (r: ReadOutcome)
    ensures r.state == s.(initiateTime := r.state.initiateTime)
    ensures r.ok <==> |stream| > 0 && stream[0].FloatValue?
    ensures r.ok ==> r.state.initiateTime == stream[0].f && r.rest == stream[1..]
    ensures !r.ok ==> r == ReadOutcome(s, [], false)
  {
    if |stream| > 0 && stream[0].FloatValue? then ReadOutcome(s.(initiateTime := stream[0].f), stream[1..], true)
    else ReadOutcome(s, [], false)
  }

  /** Reading back what the owner wrote restores its start time and nothing else. */
  lemma PickupViewRoundTrip(writer: PickupState, reader: PickupState, rest: seq<StreamValue>)
    ensures ReadPickupView(reader, WritePickupView(writer) + rest) ==
      ReadOutcome(reader.(initiateTime := writer.initiateTime), rest, true)
  {
  }

  /** A run of Update calls at the given times, with fixed ownership and connection. */
  function ApplyUpdates(s: PickupState, isMine: bool, connected: bool, times: seq<real>): Outcome
    decreases |times|
  {
    if times == [] then Outcome(s, [])
    else
      var first := UpdateRule(s, isMine, connected, times[0]);
      var later := ApplyUpdates(first.state, isMine, connected, times[1..]);
      Outcome(later.state, first.effects + later.effects)
  }

  /** Every Update before the lifetime is up leaves the pickup as it is. */
  lemma {:induction false} UpdatesBeforeExpiryIdle(s: PickupState, isMine: bool, connected: bool, times: seq<real>)
    requires forall i :: 0 <= i < |times| ==> times[i] < s.initiateTime + LiveTime
    ensures ApplyUpdates(s, isMine, connected, times) == Outcome(s, [])
    decreases |times|
  {
    if times != [] {
      UpdatesBeforeExpiryIdle(s, isMine, connected, times[1..]);
    }
  }

  /**
   * Started at `start`, the pickup first acts exactly LiveTime later: Updates
   * before that do nothing, and the owner's Update at that moment destroys it.
   */
  lemma FirstExpiryAtLiveTime(start: real, times: seq<real>)
    requires forall i :: 0 <= i < |times| ==> times[i] < start + LiveTime
    ensures var s := PickupState(start, true, true);
      ApplyUpdates(s, true, true, times + [start + LiveTime]) == Outcome(s, SelfDestroy)
  {
    var s := PickupState(start, true, true);
    ApplyUpdatesSplit(s, true, true, times, [start + LiveTime]);
    UpdatesBeforeExpiryIdle(s, true, true, times);
    assert [start + LiveTime][1..] == [];
  }

  lemma {:induction false} ApplyUpdatesSplit(s: PickupState, isMine: bool, connected: bool, a: seq<real>, b: seq<real>)
    ensures var first := ApplyUpdates(s, isMine, connected, a);
      var later := ApplyUpdates(first.state, isMine, connected, b);
      ApplyUpdates(s, isMine, connected, a + b) == Outcome(later.state, first.effects + later.effects)
    decreases |a|
  {
    if a == [] {
      assert a + b == b;
    } else {
      assert (a + b)[1..] == a[1..] + b;
      ApplyUpdatesSplit(UpdateRule(s, isMine, connected, a[0]).state, isMine, connected, a[1..], b);
    }
  }

  /** A connected observer's Updates never change or log anything, at any time. */
  lemma {:induction false} ObserverUpdatesIdle(s: PickupState, times: seq<real>)
    ensures ApplyUpdates(s, false, true, times) == Outcome(s, [])
    decreases |times|
  {
    if times != [] {
      ObserverUpdatesIdle(s, times[1..]);
    }
  }

  class SpeedUpPickUp {
    var initiateTime: real
    var rendererEnabled: bool
    var colliderEnabled: bool
    /** Everything asked of the engine so far, oldest first. */
    var effects: seq<Effect>

    /** The field initialisers; the renderer and collider start enabled. */
    constructor ()
      ensures initiateTime == 0.0 && rendererEnabled && colliderEnabled && effects == []
    {
      initiateTime := 0.0;
      rendererEnabled := true;
      colliderEnabled := true;
      effects := [];
    }

    function State(): PickupState
      reads this
    {
      PickupState(initiateTime, rendererEnabled, colliderEnabled)
    }

    /** Start: the lifetime runs from now. */
    method Start(now: real)
      modifies this`initiateTime
      ensures initiateTime == now
      ensures !Expired(State(), now) && Expired(State(), now + LiveTime)
    {
      initiateTime := now;
    }

    method Update(isMine: bool, connected: bool, now: real)
      modifies this`rendererEnabled, this`colliderEnabled, this`effects
      ensures var o := UpdateRule(old(State()), isMine, connected, now);
        State() == o.state && effects == old(effects) + o.effects
    {
      if !isMine && connected {
        return;
      }
      if initiateTime + LiveTime <= now {
        if isMine && connected {
          effects := effects + [NetDestroy(ThisObject)];
          effects := effects + [LocalDestroy(ThisObject)];
        } else {
          HideSelf();
        }
      }
    }

    method HideSelf()
      modifies this`rendererEnabled, this`colliderEnabled
      ensures State() == Hidden(old(State()))
    {
      rendererEnabled := false;
      colliderEnabled := false;
    }

    method OnTriggerEnter2D(isMine: bool, connected: bool, obj: Collider)
      modifies this`effects
      ensures effects == old(effects) + TouchRule(isMine, connected, obj)
    {
      if obj.tag == ElementTag {
        if isMine && connected {
          effects := effects + [Rpc(AddSpeedWithTimeRpc, All, HitObject(obj), [SpeedUpDeltaArg, SpeedUpTimeArg])];
          effects := effects + [NetDestroy(ThisObject)];
          effects := effects + [LocalDestroy(ThisObject)];
        }
      }
    }

    /** OnPhotonSerializeView while writing. */
    method SerializeView(stream: seq<StreamValue>) returns (out: seq<StreamValue>)
      ensures out == stream + WritePickupView(State())
      ensures ReadPickupView(State(), out[|stream|..]).ok
    {
      out := stream + [FloatValue(initiateTime)];
      assert out[|stream|..] == WritePickupView(State());
    }

    /** OnPhotonSerializeView while reading. */
    method DeserializeView(stream: seq<StreamValue>) returns (rest: seq<StreamValue>, ok: bool)
      modifies this`initiateTime
      ensures ReadOutcome(State(), rest, ok) == ReadPickupView(old(State()), stream)
    {
      if |stream| == 0 || !stream[0].FloatValue? {
        return [], false;
      }
      initiateTime := stream[0].f;
      return stream[1..], true;
    }
  }
}
