/**
 * The room screen of app/components/room.tsx, without its rendering: the
 * clock-skew capture on each hand-state broadcast, the countdown recomputed
 * on each interval tick, the two "raising" predicates, the inbound message
 * dispatch and which intent the hand button can send.
 *
 * `Date.now()` is a parameter; remaining time is kept in whole milliseconds.
 */
module RoomClient {
  import opened Wrappers
  import opened Messages
  import opened AppStateModel

  // ---------------------------------------------------------------------------
  // Clock-skew reconciliation (room.tsx:23-36, 73)

  /** The offset captured when a hand state arrives: local arrival time minus server timestamp. */
  function ClockSkew(arrival: int, timestampMilliseconds: int): (skew: int)
    // adding the skew carries the server's timestamp onto the local arrival instant
    ensures skew + timestampMilliseconds == arrival
  {
    arrival - timestampMilliseconds
  }

  /** The tick shows a countdown: a raised hand whose local expiry lies ahead (room.tsx:23-27). */
  predicate ShowsCountdown(handState: Option<HandState>, skew: int, now: int)
    // shown while less than the timeout has passed locally since the stamp's local image
    ensures ShowsCountdown(handState, skew, now) <==>
              handState.Some? && handState.value.timestampMilliseconds != 0 &&
              now - (skew + handState.value.timestampMilliseconds) < RaiseHandTimeoutMilliseconds
  {
    && handState.Some?
    && handState.value.timestampMilliseconds != 0
    && skew + handState.value.timestampMilliseconds > now - RaiseHandTimeoutMilliseconds
  }

  /**
   * The value one tick stores: the remaining milliseconds, or nothing
   * (room.tsx:28-36). What is shown is always positive, and never more than
   * the timeout once the local clock has reached the arrival instant.
   */
  function Countdown(handState: Option<HandState>, skew: int, now: int): (r: Option<int>)
    ensures r.Some? <==> ShowsCountdown(handState, skew, now)
    ensures r.Some? ==> r.value > 0
    ensures r.Some? && now >= skew + handState.value.timestampMilliseconds ==>
              r.value <= RaiseHandTimeoutMilliseconds
  {
    if ShowsCountdown(handState, skew, now) then
      Some(RaiseHandTimeoutMilliseconds - (now - (skew + handState.value.timestampMilliseconds)))
    else
      None
  }

  /** At the arrival instant a raised hand shows the whole timeout. */
  lemma CountdownAtArrival(h: HandState, arrival: int)
    requires h.timestampMilliseconds != 0
    ensures Countdown(Some(h), ClockSkew(arrival, h.timestampMilliseconds), arrival)
            == Some(RaiseHandTimeoutMilliseconds)
  {
  }

  /** A lowered hand (timestamp 0) never shows a countdown, whatever the clocks. */
  lemma LoweredShowsNothing(username: string, skew: int, now: int)
    ensures Countdown(Some(HandState(username, 0)), skew, now) == None
  {
  }

  /**
   * Offset invariance: shifting the local clock by any constant, at arrival
   * and at the tick alike, leaves the countdown unchanged.
   */
  lemma CountdownOffsetInvariant(h: HandState, arrival: int, now: int, offset: int)
    ensures Countdown(Some(h), ClockSkew(arrival + offset, h.timestampMilliseconds), now + offset)
            == Countdown(Some(h), ClockSkew(arrival, h.timestampMilliseconds), now)
  {
  }

  /**
   * The countdown only runs down: `d` milliseconds later it is `d` less, or
   * gone; and once `timeout` has passed locally since arrival it is gone.
   */
  lemma CountdownRunsDown(h: HandState, arrival: int, now: int, d: nat)
    ensures var skew := ClockSkew(arrival, h.timestampMilliseconds);
            Countdown(Some(h), skew, now + d).Some? ==>
              Countdown(Some(h), skew, now).Some? &&
              Countdown(Some(h), skew, now + d).value == Countdown(Some(h), skew, now).value - d
    ensures now >= arrival + RaiseHandTimeoutMilliseconds ==>
              Countdown(Some(h), ClockSkew(arrival, h.timestampMilliseconds), now) == None
  {
  }

  /**
   * What one interval run stores when it reads the clock twice: `testNow`
   * decides whether a countdown is shown (room.tsx:26), `valueNow` computes
   * it (room.tsx:30). The stored value exceeds `testNow - valueNow`, so it
   * is positive when both reads agree and may reach 0 or below when the
   * second read is later.
   */
  function TickValue(handState: Option<HandState>, skew: int, testNow: int, valueNow: int): (r: Option<int>)
    ensures r.Some? <==> ShowsCountdown(handState, skew, testNow)
    ensures r.Some? ==> r.value > testNow - valueNow
    ensures testNow == valueNow ==> r == Countdown(handState, skew, testNow)
  {
    if ShowsCountdown(handState, skew, testNow) then
      Some(RaiseHandTimeoutMilliseconds - (valueNow - (skew + handState.value.timestampMilliseconds)))
    else
      None
  }

  /** The two reads can disagree at the edge: a test at 5999 and a value read at 6000 store 0. */
  lemma TwoReadsCanStoreZero()
    ensures TickValue(Some(HandState("A", 1000)), 0, 5999, 6000) == Some(0)
  {
  }

  // ---------------------------------------------------------------------------
  // Who is raising (room.tsx:48-53)

  predicate IsAnyUserRaisingHand(s: AppState)
    // someone is raising exactly when the hand would show a countdown at its arrival instant
    ensures IsAnyUserRaisingHand(s) <==>
              s.handState.Some? && ShowsCountdown(s.handState, 0, s.handState.value.timestampMilliseconds)
  {
    s.handState.Some? && s.handState.value.timestampMilliseconds != 0
  }

  predicate IsCurrentUserRaisingHand(s: AppState)
    // the current user is raising exactly when someone is, under the current user's name
    ensures IsCurrentUserRaisingHand(s) <==>
              IsAnyUserRaisingHand(s) && s.handState.value.username == s.username
  {
    s.handState.Some? && s.username == s.handState.value.username &&
    s.handState.value.timestampMilliseconds != 0
  }

  /** The current user raising means someone is raising. */
  lemma CurrentUserRaisingIsAnyUserRaising(s: AppState)
    ensures IsCurrentUserRaisingHand(s) ==> IsAnyUserRaisingHand(s)
  {
  }

  // ---------------------------------------------------------------------------
  // The hand button (room.tsx:142-174)

  datatype HandButton =
    | LowerHandButton         // enabled, sends lower-hand
    | DisabledRaiseHandButton // someone else is raising
    | RaiseHandButton         // enabled, sends raise-hand

  function ButtonFor(s: AppState): (b: HandButton)
    ensures b == LowerHandButton <==> IsCurrentUserRaisingHand(s)
    ensures b == RaiseHandButton <==> !IsAnyUserRaisingHand(s)
  {
    if IsCurrentUserRaisingHand(s) then LowerHandButton
    else if IsAnyUserRaisingHand(s) then DisabledRaiseHandButton
    else RaiseHandButton
  }

  /** What clicking the button sends; a disabled button sends nothing. */
  function OnClick(b: HandButton): (r: Option<ClientMessage>)
    ensures r.None? <==> b == DisabledRaiseHandButton
    ensures r == Some(LowerHand) <==> b == LowerHandButton
  {
    match b
    case LowerHandButton => Some(LowerHand)
    case DisabledRaiseHandButton => None
    case RaiseHandButton => Some(RaiseHand)
  }

  /**
   * Lower-hand can be sent exactly when the current user is raising,
   * raise-hand exactly when nobody is, and nothing while someone else is.
   */
  lemma AvailableIntents(s: AppState)
    ensures OnClick(ButtonFor(s)) == Some(LowerHand) <==> IsCurrentUserRaisingHand(s)
    ensures OnClick(ButtonFor(s)) == Some(RaiseHand) <==> !IsAnyUserRaisingHand(s)
    ensures OnClick(ButtonFor(s)) == None <==> IsAnyUserRaisingHand(s) && !IsCurrentUserRaisingHand(s)
  {
  }

  // ---------------------------------------------------------------------------
  // The component's state cells

  class Room {
    /** `stringToColor`, which is not part of this model. */
    const stringToColor: string -> string
    /** The shared `appState` cell. */
    var appState: AppState
    /** `errorMessage`. */
    var errorMessage: Option<string>
    /** `clockSkewFromServer`. */
    var clockSkewFromServer: int
    /** `remainingHandRaisedSeconds`, in milliseconds. */
    var remainingHandRaised: Option<int>
    /** Every message `socket.send` was given, in order. */
    var sent: seq<ClientMessage>

    /** The component's first render (room.tsx:15-20). */
    constructor (initial: AppState, stringToColor: string -> string)
      ensures this.stringToColor == stringToColor && appState == initial
      ensures errorMessage == None && clockSkewFromServer == 0
      ensures remainingHandRaised == None && sent == []
    {
      this.stringToColor := stringToColor;
      appState := initial;
      errorMessage := None;
      clockSkewFromServer := 0;
      remainingHandRaised := None;
      sent := [];
    }

    /**
     * `onMessage` (room.tsx:65-75): clears the error, then a user list replaces
     * the members only, and a hand state replaces the hand state and captures
     * the skew.
     */
    method OnMessage(msg: ServerMessage, arrival: int)
      modifies this`appState, this`errorMessage, this`clockSkewFromServer
      ensures errorMessage == None
      ensures msg.UserList? ==>
                appState == SetUsers(old(appState), msg.users, stringToColor) &&
                clockSkewFromServer == old(clockSkewFromServer)
      ensures msg.BroadcastRaiseHand? ==>
                appState == SetHandState(old(appState), msg.payload) &&
                clockSkewFromServer == ClockSkew(arrival, msg.payload.timestampMilliseconds)
    {
      errorMessage := None;
      match msg
      case UserList(users) =>
        appState := SetUsers(appState, users, stringToColor);
      case BroadcastRaiseHand(handState) =>
        appState := SetHandState(appState, handState);
        clockSkewFromServer := arrival - handState.timestampMilliseconds;
    }

    /**
     * One run of the 50 ms interval (room.tsx:22-37), which reads the clock
     * once for its test and once more for the value it stores.
     */
    method Tick(testNow: int, valueNow: int)
      modifies this`remainingHandRaised
      ensures remainingHandRaised == TickValue(appState.handState, clockSkewFromServer, testNow, valueNow)
      ensures testNow == valueNow ==>
                remainingHandRaised == Countdown(appState.handState, clockSkewFromServer, testNow)
    {
      if appState.handState.Some? && appState.handState.value.timestampMilliseconds != 0 &&
         clockSkewFromServer + appState.handState.value.timestampMilliseconds > testNow - RaiseHandTimeoutMilliseconds {
        remainingHandRaised := Some(RaiseHandTimeoutMilliseconds -
          (valueNow - (clockSkewFromServer + appState.handState.value.timestampMilliseconds)));
      } else {
        remainingHandRaised := None;
      }
    }

    /** The socket's `onClose` (room.tsx:57-60). */
    method OnClose()
      modifies this`errorMessage
      ensures errorMessage == Some("DISCONNECTED: connection closed")
    {
      errorMessage := Some("DISCONNECTED: connection closed");
    }

    /** The socket's `onError` (room.tsx:61-64). */
    method OnError()
      modifies this`errorMessage
      ensures errorMessage == Some("DISCONNECTED: connection error")
    {
      errorMessage := Some("DISCONNECTED: connection error");
    }

    /** A click on the hand button as it is currently rendered (room.tsx:142-174). */
    method ClickHandButton()
      modifies this`sent
      ensures IsCurrentUserRaisingHand(appState) ==> sent == old(sent) + [LowerHand]
      ensures !IsAnyUserRaisingHand(appState) ==> sent == old(sent) + [RaiseHand]
      ensures IsAnyUserRaisingHand(appState) && !IsCurrentUserRaisingHand(appState) ==> sent == old(sent)
    {
      var intent := OnClick(ButtonFor(appState));
      if intent.Some? {
        sent := sent + [intent.value];
      }
    }
  }
}
