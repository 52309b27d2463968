/**
 * The landing page's create and join handlers: the name is checked before the
 * meeting code, a blank field raises an alert, and a valid form navigates to
 * the room's route. `encodeURIComponent` is a parameter, and so is the random
 * room id.
 */
module Landing {
  import opened JsString

  /** What a click does: an alert with a message, or navigation to a route. */
  datatype Outcome = Alert(message: string) | Navigate(route: string)

  const NameAlert: string := "Please enter your name"
  const CodeAlert: string := "Please enter a meeting code"
  const RoomPrefix: string := "/room/"
  const NameQuery: string := "?name="

  /** `/room/${roomId}?name=${encode(userName)}`. */
  function RoomRoute(roomId: string, userName: string, encode: string -> string): (route: string)
    ensures |route| == |RoomPrefix| + |roomId| + |NameQuery| + |encode(userName)|
    ensures route[..|RoomPrefix|] == RoomPrefix
    ensures route[|RoomPrefix|..|RoomPrefix| + |roomId|] == roomId
    ensures route[|RoomPrefix| + |roomId|..] == NameQuery + encode(userName)
  {
    var route := RoomPrefix + roomId + NameQuery + encode(userName);
    assert route == RoomPrefix + roomId + (NameQuery + encode(userName));
    route
  }

  /** `handleCreateMeeting`: a blank name alerts; otherwise go to the new room. */
  function HandleCreate(userName: string, roomId: string, encode: string -> string): (o: Outcome)
    ensures o.Alert? <==> Blank(userName)
    ensures o.Alert? ==> o.message == NameAlert
    ensures o.Navigate? ==> o.route == RoomRoute(roomId, userName, encode)
  {
    if TrimsToEmpty(userName) then Alert(NameAlert)
    else Navigate(RoomRoute(roomId, userName, encode))
  }

  /**
   * `handleJoinMeeting`: a blank name alerts first, then a blank code; a valid
   * form goes to the room named by the code exactly as typed.
   */
  function HandleJoin(userName: string, meetingCode: string, encode: string -> string): (o: Outcome)
    ensures Blank(userName) ==> o == Alert(NameAlert)
    ensures !Blank(userName) && Blank(meetingCode) ==> o == Alert(CodeAlert)
    ensures o.Navigate? <==> !Blank(userName) && !Blank(meetingCode)
    ensures o.Navigate? ==> o.route == RoomRoute(meetingCode, userName, encode)
  {
    if TrimsToEmpty(userName) then Alert(NameAlert)
    else if TrimsToEmpty(meetingCode) then Alert(CodeAlert)
    else Navigate(RoomRoute(meetingCode, userName, encode))
  }

  /** The Join button's `disabled={!meetingCode.trim()}`, negated. */
  function JoinEnabled(meetingCode: string): (r: bool)
    ensures r <==> !Blank(meetingCode)
  {
    !TrimsToEmpty(meetingCode)
  }

  /**
   * The button and the handler agree: a click on an enabled button navigates
   * exactly when the name is filled in, and the handler never navigates with a
   * code for which the button is disabled.
   */
  lemma JoinButtonAgreesWithHandler(userName: string, meetingCode: string, encode: string -> string)
    ensures JoinEnabled(meetingCode) ==>
      (HandleJoin(userName, meetingCode, encode).Navigate? <==> !Blank(userName))
    ensures !JoinEnabled(meetingCode) ==> HandleJoin(userName, meetingCode, encode).Alert?
  {
  }

  /** Create and join share the name check: with the same name, both alert or neither does about it. */
  lemma NameCheckShared(userName: string, roomId: string, meetingCode: string, encode: string -> string)
    ensures HandleCreate(userName, roomId, encode) == Alert(NameAlert)
        <==> HandleJoin(userName, meetingCode, encode) == Alert(NameAlert)
  {
  }

  /** Equal routes mean equal room ids, for the same user (the route string is injective in the id). */
  lemma {:induction false} RouteDeterminesRoom(a: string, b: string, userName: string, encode: string -> string)
    requires RoomRoute(a, userName, encode) == RoomRoute(b, userName, encode)
    ensures a == b
  {
    var tail := NameQuery + encode(userName);
    var ra := RoomRoute(a, userName, encode);
    assert ra == RoomPrefix + a + tail;
    assert RoomRoute(b, userName, encode) == RoomPrefix + b + tail;
    assert |a| == |b|;
    assert a == ra[|RoomPrefix|..|RoomPrefix| + |a|];
    assert b == ra[|RoomPrefix|..|RoomPrefix| + |b|];
  }

  /** A joined room's route carries the code verbatim, untrimmed, after "/room/". */
  lemma JoinKeepsCodeVerbatim(userName: string, meetingCode: string, encode: string -> string)
    requires !Blank(userName) && !Blank(meetingCode)
    ensures var o := HandleJoin(userName, meetingCode, encode);
      o.Navigate? && |o.route| >= |RoomPrefix| + |meetingCode|
      && o.route[..|RoomPrefix|] == RoomPrefix
      && o.route[|RoomPrefix|..|RoomPrefix| + |meetingCode|] == meetingCode
  {
  }
}
