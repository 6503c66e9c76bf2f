/**
 * The client's view of its room (app/components/app-state.tsx): a record and
 * the setters that replace one field of it. Each setter in the source hands
 * React a functional updater built from a record spread, so each is a function
 * from the old record to the new one here.
 */
module AppStateModel {
  import opened Wrappers
  import opened Messages

  /** A member as the client shows it: the server's `User` plus a display colour. */
  datatype ColoredUser = ColoredUser(username: string, color: string)

  datatype AppState = AppState(
    roomId: string,
    username: string,
    users: seq<ColoredUser>,
    handState: Option<HandState>,
    inRoom: bool)

  /** `defaultAppState` (app-state.tsx:13-19). */
  const DefaultAppState: AppState := AppState("", "", [], None, false)

  /**
   * `users.map(user => ({ ...user, color: stringToColor(user.username) }))`;
   * `stringToColor` is not part of this model and is a parameter.
   */
  function WithColors(users: seq<User>, stringToColor: string -> string): (r: seq<ColoredUser>)
    ensures |r| == |users|
    ensures forall i :: 0 <= i < |users| ==>
              r[i] == ColoredUser(users[i].username, stringToColor(users[i].username))
    decreases |users|
  {
    if users == [] then []
    else [ColoredUser(users[0].username, stringToColor(users[0].username))]
         + WithColors(users[1..], stringToColor)
  }

  /** The server's view of a coloured list: the names alone, in order. */
  function WithoutColors(users: seq<ColoredUser>): (r: seq<User>)
    ensures |r| == |users|
    ensures forall i :: 0 <= i < |users| ==> r[i] == User(users[i].username)
    decreases |users|
  {
    if users == [] then [] else [User(users[0].username)] + WithoutColors(users[1..])
  }

  /** `setRoomId`'s state update (app-state.tsx:45-48); the URL rewrite is not modelled. */
  function SetRoomId(s: AppState, roomId: string): (r: AppState)
    ensures r.roomId == roomId
    ensures r.(roomId := s.roomId) == s
  {
    s.(roomId := roomId)
  }

  /** `setUsername` (app-state.tsx:49-51). */
  function SetUsername(s: AppState, username: string): (r: AppState)
    ensures r.username == username
    ensures r.(username := s.username) == s
  {
    s.(username := username)
  }

  /** `setUsers` (app-state.tsx:52-60): the list is replaced by the coloured payload. */
  function SetUsers(s: AppState, users: seq<User>, stringToColor: string -> string): (r: AppState)
    ensures |r.users| == |users|
    ensures forall i :: 0 <= i < |users| ==>
              r.users[i].username == users[i].username &&
              r.users[i].color == stringToColor(users[i].username)
    ensures r.(users := s.users) == s
  {
    s.(users := WithColors(users, stringToColor))
  }

  /** `setHandState` (app-state.tsx:61-66). */
  function SetHandState(s: AppState, handState: HandState): (r: AppState)
    ensures r.handState == Some(handState)
    ensures r.(handState := s.handState) == s
  {
    s.(handState := Some(handState))
  }

  /** `setInRoom` (app-state.tsx:67-72). */
  function SetInRoom(s: AppState, inRoom: bool): (r: AppState)
    ensures r.inRoom == inRoom
    ensures r.(inRoom := s.inRoom) == s
  {
    s.(inRoom := inRoom)
  }

  /** The default state is empty: no room, no name, no members, no hand, not in a room. */
  lemma DefaultAppStateIsEmpty()
    ensures DefaultAppState.roomId == "" && DefaultAppState.username == ""
    ensures DefaultAppState.users == [] && DefaultAppState.handState.None?
    ensures !DefaultAppState.inRoom
  {
  }

  /** Colouring loses nothing: dropping the colours gives back the server's list. */
  lemma ColorsRoundTrip(users: seq<User>, stringToColor: string -> string)
    ensures WithoutColors(WithColors(users, stringToColor)) == users
  {
  }

  /** Setters of different fields commute. */
  lemma SettersCommute(s: AppState, users: seq<User>, h: HandState, stringToColor: string -> string)
    ensures SetHandState(SetUsers(s, users, stringToColor), h) == SetUsers(SetHandState(s, h), users, stringToColor)
  {
  }
}
