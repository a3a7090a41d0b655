/**
 * VideoConferenceClientImpl: derives the room options from the end-to-end
 * encryption (E2EE) settings, installs the encryption key before the room may
 * connect, connects and enables camera and microphone once setup is complete,
 * and disconnects the room on unmount unless it is already disconnected.
 *
 * The three effects and the promise callbacks they start are the events of a
 * small state machine over `Session`; `Step` is its transition function and
 * `ConferenceClient` is the component, whose methods are proved to take exactly
 * those transitions.
 */
module VideoConferenceClient {
  import opened Sdk

  /** The E2EE web worker handle; any handle is a truthy object. */
  datatype Worker = Worker(id: nat)

  type KeyProviderId = nat

  datatype VideoCodec = VP8 | H264 | VP9 | AV1 | H265

  /** `!!(e2eePassphrase && worker)`: the empty string and `undefined` are falsy. */
  function E2eeEnabled(passphrase: Option<string>, worker: Option<Worker>): (enabled: bool)
    ensures enabled <==> passphrase.Some? && |passphrase.value| > 0 && worker.Some?
  {
    if passphrase.None? || passphrase.value == "" then false else worker.Some?
  }

  datatype VideoEncoding = VideoEncoding(maxBitrate: int, maxFramerate: int)

  datatype PublishDefaults = PublishDefaults(
    videoSimulcastLayers: seq<Resolution>,
    red: bool,
    videoCodec: Option<VideoCodec>,
    videoEncoding: VideoEncoding)

  datatype E2eeOptions = E2eeOptions(keyProvider: KeyProviderId, worker: Option<Worker>)

  datatype PixelDensity = ScreenDensity

  datatype RoomOptions = RoomOptions(
    publishDefaults: PublishDefaults,
    adaptiveStreamPixelDensity: PixelDensity,
    dynacast: bool,
    e2ee: Option<E2eeOptions>,
    singlePeerConnection: Option<bool>)

  /**
   * The memoised `roomOptions`. Redundant encoding is on exactly when E2EE is
   * off, the `e2ee` member is present exactly when E2EE is on, and the publish
   * defaults are otherwise fixed: three simulcast layers, 2,000,000 bit/s and
   * 24 frames per second. No quality key enters them.
   */
  function MakeRoomOptions(sdk: SdkPresets, e2eeEnabled: bool, codec: Option<VideoCodec>,
                           keyProvider: KeyProviderId, worker: Option<Worker>,
                           singlePeerConnection: Option<bool>): (o: RoomOptions)
    ensures o.publishDefaults.red == !e2eeEnabled
    ensures o.e2ee.Some? <==> e2eeEnabled
    ensures o.e2ee.Some? ==> o.e2ee.value == E2eeOptions(keyProvider, worker)
    ensures o.publishDefaults.videoSimulcastLayers == [sdk.h720, sdk.h480x43, sdk.h360]
    ensures o.publishDefaults.videoEncoding == VideoEncoding(2_000_000, 24)
    ensures o.publishDefaults.videoCodec == codec && o.dynacast
    ensures o.singlePeerConnection == singlePeerConnection
  {
    RoomOptions(
      PublishDefaults([sdk.h720, sdk.h480x43, sdk.h360], !e2eeEnabled, codec, VideoEncoding(2_000_000, 24)),
      ScreenDensity,
      true,
      if e2eeEnabled then Some(E2eeOptions(keyProvider, worker)) else None,
      singlePeerConnection)
  }

  datatype ConnectOptions = ConnectOptions(autoSubscribe: bool)

  /** The memoised `connectOptions`. */
  const DefaultConnectOptions: ConnectOptions := ConnectOptions(true)

  /** How far the E2EE effect's promise chain has got. */
  datatype SetupPhase =
    | NotRun         // the effect has not run yet
    | KeyPending     // keyProvider.setKey issued
    | EnablePending  // setKey resolved, room.setE2EEEnabled(true) issued
    | Done           // finished: at once without E2EE, otherwise setE2EEEnabled resolved
    | Failed         // setKey or setE2EEEnabled rejected; nothing handles the rejection

  /** What the component and the promise chain it started have done so far. */
  datatype Session = Session(
    e2eeEnabled: bool,
    mounted: bool,
    phase: SetupPhase,
    e2eeSetupComplete: bool,
    connectRanWith: Option<bool>, // the flag value the connect effect last ran with
    connectIssued: nat,           // room.connect calls
    enableIssued: nat,            // enableCameraAndMicrophone calls
    roomState: RoomState,
    disconnectCalls: nat)

  /** Just mounted, before any effect has run. */
  function Init(e2eeEnabled: bool): Session
  {
    Session(e2eeEnabled, true, NotRun, false, None, 0, 0, Disconnected, 0)
  }

  datatype Event =
    | SetupEffect                   // the E2EE effect runs
    | SetKeySettled(key: Settle)    // keyProvider.setKey's promise settles
    | SetE2eeSettled(e2ee: Settle)  // room.setE2EEEnabled(true)'s promise settles
    | ConnectEffect                 // the connect effect runs
    | ConnectSettled(conn: Settle)  // room.connect's promise settles
    | ConnectionLost                // the SDK starts reconnecting
    | Reconnected                   // the SDK is connected again
    | ServerDisconnected            // the SDK reports a disconnect
    | Unmount                       // the view unmounts and the teardown cleanup runs

  /**
   * One transition; an event that cannot happen in a state leaves it unchanged.
   * React re-runs the connect effect only when its dependency on the flag has
   * changed, and a state update after unmount has no effect.
   */
  function Step(s: Session, e: Event): Session
  {
    match e
    case SetupEffect =>
      if !s.mounted || !s.phase.NotRun? then s
      else if s.e2eeEnabled then s.(phase := KeyPending)
      else s.(phase := Done, e2eeSetupComplete := true)
    case SetKeySettled(outcome) =>
      if !s.phase.KeyPending? then s
      else s.(phase := if outcome == Resolves then EnablePending else Failed)
    case SetE2eeSettled(outcome) =>
      if !s.phase.EnablePending? then s
      else if outcome == Resolves then s.(phase := Done, e2eeSetupComplete := s.e2eeSetupComplete || s.mounted)
      else s.(phase := Failed)
    case ConnectEffect =>
      if !s.mounted || s.connectRanWith == Some(s.e2eeSetupComplete) then s
      else if !s.e2eeSetupComplete then s.(connectRanWith := Some(false))
      else s.(connectRanWith := Some(true),
              connectIssued := s.connectIssued + 1,
              enableIssued := s.enableIssued + 1,
              roomState := if s.roomState == Disconnected then Connecting else s.roomState)
    case ConnectSettled(outcome) =>
      if s.roomState != Connecting || s.connectIssued == 0 then s
      else s.(roomState := if outcome == Resolves then Connected else Disconnected)
    case ConnectionLost =>
      if s.roomState != Connected then s else s.(roomState := Reconnecting)
    case Reconnected =>
      if s.roomState != Reconnecting then s else s.(roomState := Connected)
    case ServerDisconnected =>
      s.(roomState := Disconnected)
    case Unmount =>
      if !s.mounted then s
      else if s.roomState != Disconnected then
        s.(mounted := false, roomState := Disconnected, disconnectCalls := s.disconnectCalls + 1)
      else s.(mounted := false)
  }

  /** The state after a sequence of events, applied from the left. */
  function Run(s: Session, es: seq<Event>): Session
    decreases |es|
  {
    if |es| == 0 then s else Step(Run(s, es[..|es| - 1]), es[|es| - 1])
  }

  /**
   * What holds in every reachable state: connect and enableCameraAndMicrophone
   * are issued together, at most once, and only with the flag up; the flag is
   * up only once setup is done; without E2EE no key operation is ever issued;
   * disconnect is called at most once, by the teardown.
   */
  ghost predicate Inv(s: Session)
  {
    && s.connectIssued == s.enableIssued
    && s.connectIssued <= 1
    && (s.connectIssued == 1 ==> s.connectRanWith == Some(true))
    && (s.connectRanWith == Some(true) ==> s.connectIssued == 1)
    && (s.connectIssued > 0 ==> s.e2eeSetupComplete)
    && (s.e2eeSetupComplete ==> s.phase.Done?)
    && (s.mounted && s.phase.Done? ==> s.e2eeSetupComplete)
    && (!s.e2eeEnabled ==> s.phase.NotRun? || s.phase.Done?)
    && (s.connectIssued == 0 ==> s.roomState == Disconnected)
    && (!s.mounted ==> s.roomState == Disconnected)
    && s.disconnectCalls <= 1
    && (s.disconnectCalls == 1 ==> !s.mounted)
  }

  lemma InvStep(s: Session, e: Event)
    requires Inv(s)
    ensures Inv(Step(s, e))
    ensures Step(s, e).e2eeEnabled == s.e2eeEnabled
  {
    match e
    case SetupEffect =>
    case SetKeySettled(_) =>
    case SetE2eeSettled(_) =>
    case ConnectEffect =>
    case ConnectSettled(_) =>
    case ConnectionLost =>
    case Reconnected =>
    case ServerDisconnected =>
    case Unmount =>
  }

  /** Every state reachable from mounting satisfies Inv. */
  lemma {:induction false} InvReachable(e2eeEnabled: bool, es: seq<Event>)
    ensures Inv(Run(Init(e2eeEnabled), es))
    ensures Run(Init(e2eeEnabled), es).e2eeEnabled == e2eeEnabled
    decreases |es|
  {
    if |es| > 0 {
      InvReachable(e2eeEnabled, es[..|es| - 1]);
      InvStep(Run(Init(e2eeEnabled), es[..|es| - 1]), es[|es| - 1]);
    }
  }

  /** Once setKey or setE2EEEnabled has rejected, setup never completes and nothing connects. */
  lemma {:induction false} RejectionIsFinal(s: Session, es: seq<Event>)
    requires Inv(s) && s.phase.Failed?
    ensures Inv(Run(s, es)) && Run(s, es).phase.Failed?
    ensures !Run(s, es).e2eeSetupComplete && Run(s, es).connectIssued == 0 && Run(s, es).enableIssued == 0
    decreases |es|
  {
    if |es| > 0 {
      RejectionIsFinal(s, es[..|es| - 1]);
      InvStep(Run(s, es[..|es| - 1]), es[|es| - 1]);
    }
  }

  ghost predicate KeyResolvedIn(es: seq<Event>)
  {
    exists i :: 0 <= i < |es| && es[i] == SetKeySettled(Resolves)
  }

  ghost predicate E2eeResolvedIn(es: seq<Event>)
  {
    exists i, j :: 0 <= i < j < |es| && es[i] == SetKeySettled(Resolves) && es[j] == SetE2eeSettled(Resolves)
  }

  /** The ordering trace: setKey resolved, then setE2EEEnabled resolved, then the connect effect ran. */
  ghost predicate ConnectAfterE2eeIn(es: seq<Event>)
  {
    exists i, j, k :: 0 <= i < j < k < |es|
      && es[i] == SetKeySettled(Resolves) && es[j] == SetE2eeSettled(Resolves) && es[k] == ConnectEffect
  }

  /** Appending an event keeps a resolved setKey, and a resolving setKey supplies one. */
  lemma ExtendKeyTrace(es: seq<Event>, e: Event)
    ensures KeyResolvedIn(es) || e == SetKeySettled(Resolves) ==> KeyResolvedIn(es + [e])
  {
    var es' := es + [e];
    assert es'[|es|] == e;
    if KeyResolvedIn(es) {
      var i :| 0 <= i < |es| && es[i] == SetKeySettled(Resolves);
      assert es'[i] == es[i];
    }
  }

  /** Appending an event keeps the key-then-E2EE witnesses, and a resolving setE2EEEnabled can complete them. */
  lemma ExtendE2eeTrace(es: seq<Event>, e: Event)
    ensures E2eeResolvedIn(es) || (KeyResolvedIn(es) && e == SetE2eeSettled(Resolves)) ==> E2eeResolvedIn(es + [e])
  {
    var es' := es + [e];
    assert es'[|es|] == e;
    if E2eeResolvedIn(es) {
      var i, j :| 0 <= i < j < |es| && es[i] == SetKeySettled(Resolves) && es[j] == SetE2eeSettled(Resolves);
      assert es'[i] == es[i] && es'[j] == es[j];
    } else if KeyResolvedIn(es) && e == SetE2eeSettled(Resolves) {
      var i :| 0 <= i < |es| && es[i] == SetKeySettled(Resolves);
      assert es'[i] == es[i];
    }
  }

  /** Appending an event keeps the full ordering witnesses, and a connect effect can complete them. */
  lemma ExtendConnectTrace(es: seq<Event>, e: Event)
    ensures ConnectAfterE2eeIn(es) || (E2eeResolvedIn(es) && e == ConnectEffect) ==> ConnectAfterE2eeIn(es + [e])
  {
    var es' := es + [e];
    assert es'[|es|] == e;
    if ConnectAfterE2eeIn(es) {
      var i, j, k :| 0 <= i < j < k < |es|
        && es[i] == SetKeySettled(Resolves) && es[j] == SetE2eeSettled(Resolves) && es[k] == ConnectEffect;
      assert es'[i] == es[i] && es'[j] == es[j] && es'[k] == es[k];
    } else if E2eeResolvedIn(es) && e == ConnectEffect {
      var i, j :| 0 <= i < j < |es| && es[i] == SetKeySettled(Resolves) && es[j] == SetE2eeSettled(Resolves);
      assert es'[i] == es[i] && es'[j] == es[j];
    }
  }

  /**
   * With E2EE configured, in every trace that issues connect, setKey resolved,
   * then setE2EEEnabled resolved, then the connect effect ran, in that order.
   */
  lemma {:induction false} ConnectFollowsE2eeSetup(es: seq<Event>)
    ensures var s := Run(Init(true), es);
            (s.phase.EnablePending? || s.phase.Done? ==> KeyResolvedIn(es))
            && (s.phase.Done? ==> E2eeResolvedIn(es))
            && (s.connectIssued > 0 ==> ConnectAfterE2eeIn(es))
    decreases |es|
  {
    if |es| > 0 {
      var prefix, e := es[..|es| - 1], es[|es| - 1];
      assert es == prefix + [e];
      ConnectFollowsE2eeSetup(prefix);
      InvReachable(true, prefix);
      ExtendKeyTrace(prefix, e);
      ExtendE2eeTrace(prefix, e);
      ExtendConnectTrace(prefix, e);
    }
  }

  /** The two join scenarios reach connect: without E2EE at once, with E2EE after both promises resolve. */
  lemma JoinScenariosConnect()
    ensures var s := Run(Init(false), [SetupEffect, ConnectEffect]);
            s.e2eeSetupComplete && s.connectIssued == 1 && s.enableIssued == 1 && s.roomState == Connecting
    ensures var s := Run(Init(true), [SetupEffect, ConnectEffect, SetKeySettled(Resolves),
                                      SetE2eeSettled(Resolves), ConnectEffect]);
            s.e2eeSetupComplete && s.connectIssued == 1 && s.enableIssued == 1
  {
    var es := [SetupEffect, ConnectEffect, SetKeySettled(Resolves), SetE2eeSettled(Resolves), ConnectEffect];
    var s0 := Init(true);
    assert Run(s0, es[..0]) == s0;
    assert Run(s0, es[..1]) == Step(s0, SetupEffect);
    assert Run(s0, es[..1]).phase.KeyPending?;
    assert Run(s0, es[..2]) == Step(Run(s0, es[..1]), ConnectEffect);
    assert es[..3][..2] == es[..2];
    assert Run(s0, es[..3]) == Step(Run(s0, es[..2]), SetKeySettled(Resolves));
    assert Run(s0, es[..3]).phase.EnablePending?;
    assert es[..4][..3] == es[..3];
    assert Run(s0, es[..4]) == Step(Run(s0, es[..3]), SetE2eeSettled(Resolves));
    assert Run(s0, es[..4]).e2eeSetupComplete && Run(s0, es[..4]).connectRanWith == Some(false);
    assert es[..5] == es;
  }

  /**
   * The teardown disconnects exactly when the room is not already
   * disconnected; after a server-initiated disconnect it makes no call, and a
   * second cleanup changes nothing.
   */
  lemma TeardownGuard(s: Session)
    requires s.mounted
    ensures Step(s, Unmount).roomState == Disconnected && !Step(s, Unmount).mounted
    ensures Step(s, Unmount).disconnectCalls == s.disconnectCalls + (if s.roomState != Disconnected then 1 else 0)
    ensures Step(Step(s, ServerDisconnected), Unmount).disconnectCalls == s.disconnectCalls
    ensures Step(Step(s, Unmount), Unmount) == Step(s, Unmount)
  {
  }

  /** The component, its memoised values, and the state its effects and callbacks maintain. */
  class ConferenceClient {
    const e2eeEnabled: bool
    const roomOptions: RoomOptions
    const connectOptions: ConnectOptions
    var mounted: bool
    var phase: SetupPhase
    var e2eeSetupComplete: bool
    var connectRanWith: Option<bool>
    var connectIssued: nat
    var enableIssued: nat
    var roomState: RoomState
    var disconnectCalls: nat

    function State(): Session
      reads this
    {
      Session(e2eeEnabled, mounted, phase, e2eeSetupComplete, connectRanWith,
              connectIssued, enableIssued, roomState, disconnectCalls)
    }

    constructor (sdk: SdkPresets, passphrase: Option<string>, worker: Option<Worker>,
                 codec: Option<VideoCodec>, keyProvider: KeyProviderId, singlePeerConnection: Option<bool>)
      ensures e2eeEnabled == E2eeEnabled(passphrase, worker)
      ensures roomOptions == MakeRoomOptions(sdk, e2eeEnabled, codec, keyProvider, worker, singlePeerConnection)
      ensures connectOptions == DefaultConnectOptions
      ensures State() == Init(e2eeEnabled)
    {
      var enabled := E2eeEnabled(passphrase, worker);
      e2eeEnabled := enabled;
      roomOptions := MakeRoomOptions(sdk, enabled, codec, keyProvider, worker, singlePeerConnection);
      connectOptions := DefaultConnectOptions;
      mounted := true;
      phase := NotRun;
      e2eeSetupComplete := false;
      connectRanWith := None;
      connectIssued, enableIssued := 0, 0;
      roomState := Disconnected;
      disconnectCalls := 0;
    }

    /** The E2EE effect: start `setKey(...).then(() => setE2EEEnabled(true).then(...))`, or set the flag at once. */
    method RunSetupEffect()
      modifies this
      ensures State() == Step(old(State()), SetupEffect)
    {
      if !mounted || phase != NotRun {
        return;
      }
      if e2eeEnabled {
        phase := KeyPending;
      } else {
        phase := Done;
        e2eeSetupComplete := true;
      }
    }

    /** setKey settles: on success the chain calls room.setE2EEEnabled(true); a rejection goes unhandled. */
    method OnSetKeySettled(outcome: Settle)
      modifies this
      ensures State() == Step(old(State()), SetKeySettled(outcome))
    {
      if phase != KeyPending {
        return;
      }
      phase := if outcome == Resolves then EnablePending else Failed;
    }

    /** setE2EEEnabled settles: on success the flag is set, if still mounted; a rejection goes unhandled. */
    method OnSetE2eeSettled(outcome: Settle)
      modifies this
      ensures State() == Step(old(State()), SetE2eeSettled(outcome))
    {
      if phase != EnablePending {
        return;
      }
      if outcome == Rejects {
        phase := Failed;
        return;
      }
      phase := Done;
      if mounted {
        e2eeSetupComplete := true;
      }
    }

    /**
     * The connect effect, when its flag dependency changed since its last run:
     * with the flag up, issue connect and enableCameraAndMicrophone in the same
     * step, awaiting neither; their rejections are only logged.
     */
    method RunConnectEffect()
      modifies this
      ensures State() == Step(old(State()), ConnectEffect)
    {
      if !mounted || connectRanWith == Some(e2eeSetupComplete) {
        return;
      }
      connectRanWith := Some(e2eeSetupComplete);
      if e2eeSetupComplete {
        connectIssued := connectIssued + 1;
        if roomState == Disconnected {
          roomState := Connecting;
        }
        enableIssued := enableIssued + 1;
      }
    }

    /** A change of the room's state that the SDK makes on its own. */
    method OnRoomEvent(e: Event)
      requires e.ConnectSettled? || e.ConnectionLost? || e.Reconnected? || e.ServerDisconnected?
      modifies this
      ensures State() == Step(old(State()), e)
    {
      match e
      case ConnectSettled(outcome) =>
        if roomState == Connecting && connectIssued != 0 {
          roomState := if outcome == Resolves then Connected else Disconnected;
        }
      case ConnectionLost =>
        if roomState == Connected {
          roomState := Reconnecting;
        }
      case Reconnected =>
        if roomState == Reconnecting {
          roomState := Connected;
        }
      case ServerDisconnected =>
        roomState := Disconnected;
    }

    /** The teardown effect's cleanup: disconnect unless the room is already disconnected. */
    method Unmount()
      modifies this
      ensures State() == Step(old(State()), Event.Unmount)
    {
      if !mounted {
        return;
      }
      mounted := false;
      if roomState != Disconnected {
        roomState := Disconnected;
        disconnectCalls := disconnectCalls + 1;
      }
    }
  }
}
