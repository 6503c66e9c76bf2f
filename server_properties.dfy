/**
 * What the hand-raise slot guarantees, stated over the transitions of
 * party/server.ts: who can take the token, who can give it back, when the
 * alarm lowers it, and what a run of transactions leaves behind.
 */
module ServerProperties {
  import opened Wrappers
  import opened Messages
  import opened PartyServer

  // ---------------------------------------------------------------------------
  // Raise-hand

  /**
   * Mutual exclusion without self-renewal: once a raise-hand is granted at
   * `t`, any raise-hand up to `timeout` later is denied, whoever sends it,
   * including the holder, and the slot stays as the grant wrote it.
   */
  lemma MutualExclusion(slot: Option<HandState>, a: string, b: string, t: int, t2: int)
    requires CanRaise(slot, t)
    requires t2 - t <= RaiseHandTimeoutMilliseconds
    ensures Raised(slot, a, t) == Some(HandState(a, t))
    ensures !CanRaise(Raised(slot, a, t), t2)
    ensures Raised(Raised(slot, a, t), b, t2) == Some(HandState(a, t))
  {
  }

  /** Re-claim after expiry: more than `timeout` after a grant, the next raise-hand is granted. */
  lemma ReclaimAfterTimeout(slot: Option<HandState>, a: string, b: string, t: int, t2: int)
    requires CanRaise(slot, t)
    requires t2 - t > RaiseHandTimeoutMilliseconds
    ensures Raised(Raised(slot, a, t), b, t2) == Some(HandState(b, t2))
  {
  }

  /**
   * The comparisons are strict: exactly `timeout` after the slot's timestamp,
   * raise-hand, lower-hand and the alarm all leave the slot as it is.
   */
  lemma BoundaryInstantChangesNothing(h: HandState, who: string, now: int)
    requires now - h.timestampMilliseconds == RaiseHandTimeoutMilliseconds
    ensures Raised(Some(h), who, now) == Some(h)
    ensures Lowered(Some(h), who, now) == Some(h)
    ensures Expired(Some(h), now) == Some(h)
  {
  }

  // ---------------------------------------------------------------------------
  // Lower-hand

  /** Lower-hand is holder-scoped: a request by anyone else never changes the slot. */
  lemma LowerByOtherChangesNothing(slot: Option<HandState>, b: string, now: int)
    requires slot.None? || slot.value.username != b
    ensures !CanLower(slot, b, now)
    ensures Lowered(slot, b, now) == slot
  {
  }

  /**
   * Lower-hand is idempotent on realistic clocks: after it succeeds, a second
   * lower-hand at any `now2 >= timeout` fails and leaves the lowered slot.
   */
  lemma LowerTwiceFails(slot: Option<HandState>, a: string, now: int, now2: int)
    requires CanLower(slot, a, now)
    requires now2 >= RaiseHandTimeoutMilliseconds
    ensures Lowered(slot, a, now) == Some(HandState(a, 0))
    ensures !CanLower(Lowered(slot, a, now), a, now2)
    ensures Lowered(Lowered(slot, a, now), a, now2) == Lowered(slot, a, now)
  {
  }

  /** A late lower-hand by a holder whose hand is already `timeout` old is a no-op. */
  lemma LateLowerChangesNothing(a: string, t: int, now: int)
    requires now - t >= RaiseHandTimeoutMilliseconds
    ensures Lowered(Some(HandState(a, t)), a, now) == Some(HandState(a, t))
  {
  }

  /** After a successful lower-hand, a raise-hand by anyone at `now2 > timeout` is granted. */
  lemma ReclaimAfterLower(slot: Option<HandState>, a: string, b: string, now: int, now2: int)
    requires CanLower(slot, a, now)
    requires now2 > RaiseHandTimeoutMilliseconds
    ensures CanRaise(Lowered(slot, a, now), now2)
    ensures Raised(Lowered(slot, a, now), b, now2) == Some(HandState(b, now2))
  {
  }

  // ---------------------------------------------------------------------------
  // The alarm

  /**
   * The alarm writes `{holder, 0}` exactly when the slot exists and is stale,
   * keeping the holder's name; otherwise it changes nothing.
   */
  lemma AlarmLowersOnlyStale(slot: Option<HandState>, now: int)
    ensures CanExpire(slot, now) ==> Expired(slot, now) == Some(HandState(slot.value.username, 0))
    ensures !CanExpire(slot, now) ==> Expired(slot, now) == slot
    ensures Expired(slot, now).None? <==> slot.None?
  {
  }

  /** Firing the alarm twice at the same time equals firing it once. */
  lemma AlarmIdempotent(slot: Option<HandState>, now: int)
    ensures Expired(Expired(slot, now), now) == Expired(slot, now)
  {
  }

  /** The alarm armed by a grant, fired at its time, lowers that grant. */
  lemma AlarmReleasesGrant(slot: Option<HandState>, a: string, t: int)
    requires CanRaise(slot, t)
    ensures Expired(Raised(slot, a, t), AlarmTime(t)) == Some(HandState(a, 0))
  {
  }

  // ---------------------------------------------------------------------------
  // Runs of transactions

  /** Running one more transaction is one more step. */
  lemma {:induction false} RunAppend(slot: Option<HandState>, es: seq<Event>, e: Event)
    ensures Run(slot, es + [e]) == Step(Run(slot, es), e)
    decreases |es|
  {
    if es == [] {
      assert [] + [e] == [e];
    } else {
      assert (es + [e])[1..] == es[1..] + [e];
      RunAppend(Step(slot, es[0]), es[1..], e);
    }
  }

  /**
   * A raised hand stays exactly as it is through any run of transactions
   * within `timeout` of its timestamp in which the holder does not lower it:
   * raise-hands by anyone, lower-hands by others and alarms change nothing.
   */
  lemma {:induction false} HoldPersists(a: string, t: int, es: seq<Event>)
    requires forall i :: 0 <= i < |es| ==> es[i].now - t <= RaiseHandTimeoutMilliseconds
    requires forall i :: 0 <= i < |es| ==> !(es[i].LowerBy? && es[i].who == a)
    ensures Run(Some(HandState(a, t)), es) == Some(HandState(a, t))
    decreases |es|
  {
    if es != [] {
      assert Step(Some(HandState(a, t)), es[0]) == Some(HandState(a, t));
      assert forall i :: 0 <= i < |es| - 1 ==> es[1..][i] == es[i + 1];
      HoldPersists(a, t, es[1..]);
    }
  }

  /** In such a run every raise-hand is denied. */
  lemma RaisesDeniedWhileHeld(a: string, t: int, es: seq<Event>, k: nat)
    requires forall i :: 0 <= i < |es| ==> es[i].now - t <= RaiseHandTimeoutMilliseconds
    requires forall i :: 0 <= i < |es| ==> !(es[i].LowerBy? && es[i].who == a)
    requires k < |es| && es[k].RaiseBy?
    ensures !CanRaise(Run(Some(HandState(a, t)), es[..k]), es[k].now)
  {
    HoldPersists(a, t, es[..k]);
  }

  /**
   * A granted raise-hand that nobody lowers is lowered by the alarm it armed,
   * whatever other requests arrive within the timeout.
   */
  lemma UntouchedHoldExpires(a: string, t: int, es: seq<Event>)
    requires forall i :: 0 <= i < |es| ==> es[i].now - t <= RaiseHandTimeoutMilliseconds
    requires forall i :: 0 <= i < |es| ==> !(es[i].LowerBy? && es[i].who == a)
    ensures Run(Some(HandState(a, t)), es + [AlarmAt(AlarmTime(t))]) == Some(HandState(a, 0))
  {
    RunAppend(Some(HandState(a, t)), es, AlarmAt(AlarmTime(t)));
    HoldPersists(a, t, es);
  }

  /**
   * The two-member walk-through, on a server clock that starts at `t0`: A's
   * raise is granted, B's raise a second later is denied, the alarm lowers
   * A's hand, and B's raise after that is granted.
   */
  lemma RoomWalkThrough(t0: int)
    requires t0 > RaiseHandTimeoutMilliseconds
    ensures Run(None, [RaiseBy("A", t0)]) == Some(HandState("A", t0))
    ensures Run(None, [RaiseBy("A", t0), RaiseBy("B", t0 + 1000)]) == Some(HandState("A", t0))
    ensures Run(None, [RaiseBy("A", t0), RaiseBy("B", t0 + 1000), AlarmAt(t0 + 5250)])
            == Some(HandState("A", 0))
    ensures Run(None, [RaiseBy("A", t0), RaiseBy("B", t0 + 1000), AlarmAt(t0 + 5250),
                       RaiseBy("B", t0 + 5300)])
            == Some(HandState("B", t0 + 5300))
  {
    var e1, e2, e3, e4 := RaiseBy("A", t0), RaiseBy("B", t0 + 1000), AlarmAt(t0 + 5250), RaiseBy("B", t0 + 5300);
    assert Run(None, [e1]) == Some(HandState("A", t0));
    RunAppend(None, [e1], e2);
    assert [e1] + [e2] == [e1, e2];
    RunAppend(None, [e1, e2], e3);
    assert [e1, e2] + [e3] == [e1, e2, e3];
    RunAppend(None, [e1, e2, e3], e4);
    assert [e1, e2, e3] + [e4] == [e1, e2, e3, e4];
  }

  // ---------------------------------------------------------------------------
  // Messages and broadcasts

  /** The server recognises exactly the two client intents by their wire tags. */
  lemma IntentRecognisesClientMessages(m: ClientMessage, tag: Option<string>)
    ensures Intent(Some(ClientMessageType(m))) == Some(m)
    ensures Intent(tag) == Some(m) <==> tag == Some(ClientMessageType(m))
  {
  }

  /** The member list is not deduplicated: two connections with one name give two entries. */
  lemma UserListKeepsDuplicates(c1: Connection, c2: Connection)
    requires Username(c1) == Username(c2)
    ensures UserListOf([c1, c2]) == [User(Username(c1)), User(Username(c1))]
  {
  }

  /** A connection without a `username` parameter is listed under the empty name. */
  lemma MissingUsernameIsEmpty(id: nat)
    ensures Username(Connection(id, [("room", "demo")])) == ""
    ensures Username(Connection(id, [("username", "A"), ("username", "B")])) == "A"
  {
  }
}
