/**
 * VideoConferenceClientImpl across renders, as written. Every render builds a
 * new ExternalE2EEKeyProvider; it is a dependency of the memoised room
 * options, so every render also builds new options and a new Room, and the
 * effects that depend on the room re-run for it. The setup-complete flag is
 * component state and outlives every room.
 *
 * `VideoConferenceClient.Step` is the intended one-room-per-view behaviour;
 * this module shows the discrepancy.
 */
module ConferenceRenders {
  import opened Sdk
  import opened VideoConferenceClient

  /** One Room the component built, and what has been done to it and to its key provider. */
  datatype RoomRun = RoomRun(phase: SetupPhase, connectIssued: nat, state: RoomState, disconnectCalls: nat)

  const FreshRoom: RoomRun := RoomRun(NotRun, 0, Disconnected, 0)

  /** The component over its renders: the flag, and every room built, the current one last. */
  datatype Rendered = Rendered(e2eeEnabled: bool, flag: bool, rooms: seq<RoomRun>)

  datatype RenderEvent =
    | Render                                 // a render and its commit
    | KeySettled(room: nat, key: Settle)     // that room's key provider's setKey settles
    | E2eeSettled(room: nat, e2ee: Settle)   // that room's setE2EEEnabled(true) settles

  /**
   * The teardown effect's cleanup for a room that is being replaced: it
   * disconnects the room exactly when the room is not already disconnected,
   * and leaves its setup and connect history as it was.
   */
  function Teardown(r: RoomRun): (t: RoomRun)
    ensures t.state == Disconnected
    ensures t.disconnectCalls == r.disconnectCalls + (if r.state != Disconnected then 1 else 0)
    ensures t.phase == r.phase && t.connectIssued == r.connectIssued
  {
    if r.state != Disconnected then r.(state := Disconnected, disconnectCalls := r.disconnectCalls + 1) else r
  }

  /**
   * A commit: the previous room's cleanup runs, then the setup effect starts
   * `setKey` on the new key provider (or sets the flag when E2EE is off), then
   * the connect effect runs for the new room with the flag as rendered.
   */
  function Commit(a: Rendered): (b: Rendered)
    ensures |b.rooms| == |a.rooms| + 1
    ensures b.e2eeEnabled == a.e2eeEnabled && b.flag == (a.flag || !a.e2eeEnabled)
    // the rooms built before the previous one are untouched, and the previous one is torn down
    ensures |a.rooms| > 0 ==> b.rooms[..|a.rooms| - 1] == a.rooms[..|a.rooms| - 1]
                              && b.rooms[|a.rooms| - 1] == Teardown(a.rooms[|a.rooms| - 1])
    ensures b.rooms[|a.rooms|].connectIssued == 1 <==> a.flag
    ensures a.e2eeEnabled ==> b.rooms[|a.rooms|].phase.KeyPending?
  {
    var previous := if |a.rooms| == 0 then [] else a.rooms[..|a.rooms| - 1] + [Teardown(a.rooms[|a.rooms| - 1])];
    var started := if a.e2eeEnabled then FreshRoom.(phase := KeyPending) else FreshRoom.(phase := Done);
    var room := if a.flag then started.(connectIssued := 1, state := Connecting) else started;
    Rendered(a.e2eeEnabled, a.flag || !a.e2eeEnabled, previous + [room])
  }

  function RenderStep(a: Rendered, e: RenderEvent): Rendered
  {
    match e
    case Render => Commit(a)
    case KeySettled(i, outcome) =>
      if i >= |a.rooms| || !a.rooms[i].phase.KeyPending? then a
      else a.(rooms := a.rooms[i := a.rooms[i].(phase := if outcome == Resolves then EnablePending else Failed)])
    case E2eeSettled(i, outcome) =>
      if i >= |a.rooms| || !a.rooms[i].phase.EnablePending? then a
      else if outcome == Rejects then a.(rooms := a.rooms[i := a.rooms[i].(phase := Failed)])
      else a.(flag := true, rooms := a.rooms[i := a.rooms[i].(phase := Done)])
  }

  /** With E2EE on: mount, setKey and setE2EEEnabled on the first room resolve, then the re-render. */
  function AfterKeyedRerender(): Rendered
  {
    RenderStep(RenderStep(RenderStep(RenderStep(Rendered(true, false, []),
      Render), KeySettled(0, Resolves)), E2eeSettled(0, Resolves)), Render)
  }

  /**
   * With E2EE on: mount, the first room's setKey and setE2EEEnabled resolve and
   * raise the flag, and the re-render that the state update causes builds a
   * second room, which is connected at once although its key is still pending;
   * the first room, whose setup finished, is not connected
   * (`FirstRoomNeverConnects` extends this to every later event).
   */
  lemma ConnectsRoomWithoutKey()
    ensures var a := AfterKeyedRerender();
            |a.rooms| == 2
            && a.rooms[0].phase.Done? && a.rooms[0].connectIssued == 0
            && a.rooms[1].phase.KeyPending? && a.rooms[1].connectIssued == 1
  {
    var a1 := RenderStep(Rendered(true, false, []), Render);
    assert a1.rooms == [RoomRun(KeyPending, 0, Disconnected, 0)] && !a1.flag;
    var a2 := RenderStep(a1, KeySettled(0, Resolves));
    assert a2.rooms == [RoomRun(EnablePending, 0, Disconnected, 0)];
    var a3 := RenderStep(a2, E2eeSettled(0, Resolves));
    assert a3.rooms == [RoomRun(Done, 0, Disconnected, 0)] && a3.flag;
  }

  /**
   * The intended behaviour, as `VideoConferenceClient.Step` gives it for the
   * same events on one room: the connect effect issues connect only after that
   * room's key is set and its E2EE enabled.
   */
  lemma OneRoomConnectsAfterKey()
    ensures var s := Run(Init(true), [SetupEffect, SetKeySettled(Resolves), SetE2eeSettled(Resolves), ConnectEffect]);
            s.phase.Done? && s.connectIssued == 1
    ensures forall es :: Run(Init(true), es).connectIssued > 0 ==> ConnectAfterE2eeIn(es)
  {
    var es := [SetupEffect, SetKeySettled(Resolves), SetE2eeSettled(Resolves), ConnectEffect];
    var s0 := Init(true);
    assert Run(s0, es[..0]) == s0;
    assert Run(s0, es[..1]) == Step(s0, SetupEffect);
    assert es[..2][..1] == es[..1];
    assert Run(s0, es[..2]) == Step(Run(s0, es[..1]), SetKeySettled(Resolves));
    assert es[..3][..2] == es[..2];
    assert Run(s0, es[..3]) == Step(Run(s0, es[..2]), SetE2eeSettled(Resolves));
    assert Run(s0, es[..3]).e2eeSetupComplete;
    assert es[..4] == es;
    forall es | Run(Init(true), es).connectIssued > 0 ensures ConnectAfterE2eeIn(es) {
      ConnectFollowsE2eeSetup(es);
    }
  }

  /** Events applied from the left. */
  function RunRenders(a: Rendered, es: seq<RenderEvent>): Rendered
    decreases |es|
  {
    if |es| == 0 then a else RenderStep(RunRenders(a, es[..|es| - 1]), es[|es| - 1])
  }

  /** No event issues connect on a room other than the one a render has just built. */
  lemma RenderStepKeepsOlderRooms(a: Rendered, e: RenderEvent)
    ensures |RenderStep(a, e).rooms| >= |a.rooms|
    ensures forall i :: 0 <= i < |a.rooms| ==> RenderStep(a, e).rooms[i].connectIssued == a.rooms[i].connectIssued
  {
    if e.Render? {
      var b := Commit(a);
      forall i | 0 <= i < |a.rooms| ensures b.rooms[i].connectIssued == a.rooms[i].connectIssued {
        if i < |a.rooms| - 1 {
          assert b.rooms[..|a.rooms| - 1][i] == b.rooms[i];
          assert a.rooms[..|a.rooms| - 1][i] == a.rooms[i];
        }
      }
    }
  }

  /** A room that was not connected when a later room was built is never connected afterwards. */
  lemma {:induction false} OlderRoomStaysUnconnected(a: Rendered, i: nat, es: seq<RenderEvent>)
    requires i < |a.rooms| && a.rooms[i].connectIssued == 0
    ensures i < |RunRenders(a, es).rooms| && RunRenders(a, es).rooms[i].connectIssued == 0
    decreases |es|
  {
    if |es| > 0 {
      OlderRoomStaysUnconnected(a, i, es[..|es| - 1]);
      RenderStepKeepsOlderRooms(RunRenders(a, es[..|es| - 1]), es[|es| - 1]);
    }
  }

  /** After the counterexample's events, whatever happens next, the room whose setup finished is never connected. */
  lemma FirstRoomNeverConnects(es: seq<RenderEvent>)
    ensures var a := AfterKeyedRerender();
            |RunRenders(a, es).rooms| > 1
            && RunRenders(a, es).rooms[0].connectIssued == 0 && RunRenders(a, es).rooms[0].phase.Done?
  {
    ConnectsRoomWithoutKey();
    var a := AfterKeyedRerender();
    OlderRoomStaysUnconnected(a, 0, es);
    FirstRoomPhaseStaysDone(a, es);
  }

  /** A room whose setup is done keeps that phase: no later settlement applies to it. */
  lemma {:induction false} FirstRoomPhaseStaysDone(a: Rendered, es: seq<RenderEvent>)
    requires |a.rooms| > 1 && a.rooms[0].phase.Done?
    ensures |RunRenders(a, es).rooms| > 1 && RunRenders(a, es).rooms[0].phase.Done?
    decreases |es|
  {
    if |es| > 0 {
      FirstRoomPhaseStaysDone(a, es[..|es| - 1]);
      var p := RunRenders(a, es[..|es| - 1]);
      if es[|es| - 1].Render? {
        assert Commit(p).rooms[..|p.rooms| - 1][0] == Commit(p).rooms[0];
        assert p.rooms[..|p.rooms| - 1][0] == p.rooms[0];
      }
    }
  }

  /**
   * With E2EE off, once the flag is up every re-render drops the live room and
   * connects a new one: three renders leave the second room connected and then
   * disconnected once, and the third connecting.
   */
  lemma RerenderReplacesLiveRoom()
    ensures var a := Commit(Commit(Commit(Rendered(false, false, []))));
            |a.rooms| == 3
            && a.rooms[0].connectIssued == 0 && a.rooms[0].disconnectCalls == 0
            && a.rooms[1].connectIssued == 1 && a.rooms[1].state == Disconnected && a.rooms[1].disconnectCalls == 1
            && a.rooms[2].connectIssued == 1 && a.rooms[2].state == Connecting
  {
    var a1 := Commit(Rendered(false, false, []));
    assert a1.rooms == [RoomRun(Done, 0, Disconnected, 0)] && a1.flag;
    var a2 := Commit(a1);
    assert a2.rooms == [RoomRun(Done, 0, Disconnected, 0), RoomRun(Done, 1, Connecting, 0)];
  }
}
