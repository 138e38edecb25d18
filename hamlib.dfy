/**
 * The Hamlib channel: one snapshot (`rigState$`) kept while frames keep arriving, the same
 * 15-second silence debounce as the WSJT-X channel, no close signal, no id and no commands.
 *
 * Unlike the WSJT-X channel, the constructor does not install the debounce and the clearing
 * subscriber: that happens only when `setupBehaviors` is called, so the model records
 * whether it has been. Time is discrete as in the WSJT-X channel: `clock` is now and
 * `deadline` is when the armed debounce fires.
 */
module Hamlib {
  import opened Wrappers
  import opened HamlibMessages
  import opened AgentMessages

  /** The silence after which the channel counts as down. */
  const SilenceMs := 15000

  /** The `type` of the one Hamlib message the channel keeps. */
  const RigStateType := "RigState"

  class HamlibService {
    var connected: bool
    var rigState: Option<HamlibRigState>
    var behaviorsSetUp: bool
    var clock: int
    var deadline: int
    /** When the last frame arrived. */
    ghost var lastFrame: Option<int>

    ghost predicate Valid()
      reads this
    {
      && (lastFrame.Some? ==> lastFrame.value <= clock)
      // only a frame ever emits `true`
      && (connected ==> lastFrame.Some?)
      // without the debounce nothing ever takes the channel down
      && (!behaviorsSetUp ==> (connected <==> lastFrame.Some?))
      && (behaviorsSetUp ==>
            // the debounce is armed, by an emission at or before `clock`
            && clock < deadline <= clock + SilenceMs
            // the snapshot is never stale while the channel is down
            && (!connected ==> rigState.None?)
            // a frame pushes the debounce out by the full silence
            && (lastFrame.Some? ==> lastFrame.value + SilenceMs <= deadline)
            // so the channel is up while the last frame is less than 15000 ms old
            && (lastFrame.Some? && clock < lastFrame.value + SilenceMs ==> connected))
    }

    /** `connected$` starts false and `rigState$` starts null; nothing is subscribed yet. */
    constructor (now: int)
      ensures Valid()
      ensures !connected && rigState.None? && !behaviorsSetUp
      ensures clock == now && lastFrame.None?
    {
      connected := false;
      rigState := None;
      behaviorsSetUp := false;
      clock := now;
      deadline := now;
      lastFrame := None;
    }

    /**
     * `setupBehaviors`: both new subscribers receive the current value of `connected$` at
     * once, which arms the debounce now and, if the channel is down, clears the snapshot.
     * Calling it again adds a second debounce that the first one's emissions always
     * re-arm, and a second clearing subscriber that does the same as the first: the state
     * does not change.
     */
    method SetupBehaviors()
      requires Valid()
      modifies this
      ensures Valid()
      ensures behaviorsSetUp && connected == old(connected) && clock == old(clock)
      ensures lastFrame == old(lastFrame)
      ensures old(behaviorsSetUp) ==> deadline == old(deadline) && rigState == old(rigState)
      ensures !old(behaviorsSetUp) ==>
        && deadline == clock + SilenceMs
        && rigState == (if connected then old(rigState) else None)
    {
      if !behaviorsSetUp {
        behaviorsSetUp := true;
        deadline := clock + SilenceMs;
        if !connected {
          rigState := None;
        }
      }
    }

    /**
     * `handleMessage`: every frame marks the channel up, whatever its type; a `RigState`
     * frame also replaces the snapshot. The source reads `msg.hamlib.type` without a guard,
     * so a frame without a `hamlib` part is outside its domain.
     */
    method HandleMessage(frame: Frame)
      requires Valid()
      requires frame.hamlib.Some?
      modifies this
      ensures Valid()
      ensures connected && lastFrame == Some(clock)
      ensures clock == old(clock) && behaviorsSetUp == old(behaviorsSetUp)
      ensures deadline == if behaviorsSetUp then clock + SilenceMs else old(deadline)
      ensures rigState ==
        if frame.hamlib.value.msgType == Some(RigStateType) then Some(frame.hamlib.value.payload)
        else old(rigState)
    {
      connected := true;
      if behaviorsSetUp {
        deadline := clock + SilenceMs;
      }
      lastFrame := Some(clock);
      if frame.hamlib.value.msgType == Some(RigStateType) {
        rigState := Some(frame.hamlib.value.payload);
      }
    }

    /**
     * The scheduler advances time to `now`. Once set up, time cannot pass a due deadline;
     * the debounce fires when it is reached, takes the channel down, clears the snapshot
     * and is re-armed by its own emission. Silence is the only way down.
     */
    method Tick(now: int)
      requires Valid()
      requires clock <= now
      requires behaviorsSetUp ==> now <= deadline
      modifies this
      ensures Valid()
      ensures clock == now && behaviorsSetUp == old(behaviorsSetUp) && lastFrame == old(lastFrame)
      ensures behaviorsSetUp && now == old(deadline) ==>
        !connected && rigState.None? && deadline == now + SilenceMs
      ensures !(behaviorsSetUp && now == old(deadline)) ==>
        connected == old(connected) && rigState == old(rigState) && deadline == old(deadline)
    {
      clock := now;
      if behaviorsSetUp && now == deadline {
        connected := false;
        rigState := None;
        deadline := now + SilenceMs;
      }
    }
  }
}
