/**
 * The RTP passthrough side of the fake camera, as its tests pin it down: a
 * registry of packet subscriptions, switched on or off by the camera's
 * `rtp_passthrough` setting, that hands out subscriptions, cancels one on
 * Unsubscribe and cancels all that are left when the camera is closed.
 */
module FakeCamera {
  import opened Wrappers

  /** rtppassthrough.SubscriptionID, a UUID; 0 plays the nil UUID. */
  type SubscriptionId = nat

  const NilId: SubscriptionId := 0

  /** rtppassthrough.Subscription. Its Terminated context is observed
      through the camera's TerminatedErr. */
  datatype Subscription = Subscription(id: SubscriptionId)

  /** rtppassthrough.NilSubscription */
  const NilSubscription: Subscription := Subscription(NilId)

  /** Why a subscription's Terminated context ended: context.Canceled. */
  datatype Cause = Canceled

  datatype Status = Live(bufferSize: int) | Terminated(cause: Cause)

  /** errors.New("id not found") and ErrRTPPassthroughNotEnabled */
  datatype RtpError = IdNotFound | RtpPassthroughNotEnabled

  class Camera {
    const rtpPassthrough: bool
    var closed: bool
    /** every subscription handed out, live or terminated */
    var subscriptions: map<SubscriptionId, Status>
    /** the next ID to hand out; all IDs handed out so far lie below it */
    var nextId: SubscriptionId

    ghost predicate Valid()
      reads this
    {
      && NilId < nextId
      && (forall id :: id in subscriptions ==> NilId < id < nextId)
      && (!rtpPassthrough ==> subscriptions == map[])
      && (closed ==> LiveIds() == {})
    }

    /** The subscriptions not terminated yet. */
    function LiveIds(): set<SubscriptionId>
      reads this
    {
      set id | id in subscriptions && subscriptions[id].Live?
    }

    /** NewCamera, as far as passthrough goes: no subscription yet. */
    constructor (rtpPassthrough: bool)
      ensures Valid()
      ensures this.rtpPassthrough == rtpPassthrough && !closed && subscriptions == map[]
    {
      this.rtpPassthrough := rtpPassthrough;
      closed := false;
      subscriptions := map[];
      nextId := NilId + 1;
    }

    /** sub.Terminated.Err(): nil while the subscription is live, its
        cause once it is terminated. */
    function TerminatedErr(sub: Subscription): (e: Option<Cause>)
      reads this
      requires sub.id in subscriptions
      ensures e.None? <==> sub.id in LiveIds()
    {
      match subscriptions[sub.id]
      case Live(_) => None
      case Terminated(cause) => Some(cause)
    }

    /** SubscribeRTP: with passthrough enabled and the camera open, a live
        subscription under an ID never handed out before; otherwise the
        nil subscription and ErrRTPPassthroughNotEnabled. */
    method SubscribeRTP(bufferSize: int) returns (sub: Subscription, err: Option<RtpError>)
      requires Valid()
      modifies this
      ensures Valid() && closed == old(closed)
      ensures !rtpPassthrough || old(closed) ==>
        && sub == NilSubscription && err == Some(RtpPassthroughNotEnabled)
        && subscriptions == old(subscriptions)
      ensures rtpPassthrough && !old(closed) ==>
        && err == None && sub.id != NilId && sub.id !in old(subscriptions)
        && subscriptions == old(subscriptions)[sub.id := Live(bufferSize)]
    {
      if !rtpPassthrough || closed {
        return NilSubscription, Some(RtpPassthroughNotEnabled);
      }
      sub := Subscription(nextId);
      nextId := nextId + 1;
      subscriptions := subscriptions[sub.id := Live(bufferSize)];
      err := None;
    }

    /** Unsubscribe: terminates a live subscription with Canceled; any
        other ID (never handed out, or already terminated) is not found
        and nothing changes. */
    method Unsubscribe(id: SubscriptionId) returns (err: Option<RtpError>)
      requires Valid()
      modifies this
      ensures Valid() && closed == old(closed) && nextId == old(nextId)
      ensures !rtpPassthrough ==>
        err == Some(RtpPassthroughNotEnabled) && subscriptions == old(subscriptions)
      ensures rtpPassthrough && id !in old(LiveIds()) ==>
        err == Some(IdNotFound) && subscriptions == old(subscriptions)
      ensures rtpPassthrough && id in old(LiveIds()) ==>
        err == None && subscriptions == old(subscriptions)[id := Terminated(Canceled)]
    {
      if !rtpPassthrough {
        return Some(RtpPassthroughNotEnabled);
      }
      if id !in subscriptions || subscriptions[id].Terminated? {
        return Some(IdNotFound);
      }
      subscriptions := subscriptions[id := Terminated(Canceled)];
      err := None;
    }

    /** Close: returns nil and terminates with Canceled every subscription
        still live; terminated ones keep their cause. */
    method Close() returns (err: Option<RtpError>)
      requires Valid()
      modifies this
      ensures Valid() && closed && err == None && nextId == old(nextId)
      ensures subscriptions.Keys == old(subscriptions).Keys
      ensures forall id :: id in subscriptions ==>
        subscriptions[id] == if id in old(LiveIds()) then Terminated(Canceled) else old(subscriptions[id])
    {
      subscriptions := map id | id in subscriptions ::
        if subscriptions[id].Live? then Terminated(Canceled) else subscriptions[id];
      closed := true;
      err := None;
    }
  }

  /** The enabled half of the passthrough test, call by call. */
  method ReplayPassthroughEnabled()
  {
    var cam := new Camera(true);
    var sub, err := cam.SubscribeRTP(512);
    assert err == None;

    // an ID nobody was given, as uuid.New() provides
    var unrelated := cam.nextId;
    var uerr := cam.Unsubscribe(unrelated);
    assert uerr == Some(IdNotFound);
    assert cam.TerminatedErr(sub) == None;

    uerr := cam.Unsubscribe(sub.id);
    assert uerr == None;
    assert cam.TerminatedErr(sub) == Some(Canceled);

    var sub2, err2 := cam.SubscribeRTP(512);
    assert err2 == None;
    assert cam.TerminatedErr(sub2) == None;
    var cerr := cam.Close();
    assert cerr == None;
    assert cam.TerminatedErr(sub2) == Some(Canceled);
    // the first subscription keeps its cause
    assert cam.TerminatedErr(sub) == Some(Canceled);
  }

  /** The disabled half of the passthrough test. */
  method ReplayPassthroughDisabled(anyId: SubscriptionId)
  {
    var cam := new Camera(false);
    var sub, err := cam.SubscribeRTP(512);
    assert err == Some(RtpPassthroughNotEnabled) && sub == NilSubscription;
    var uerr := cam.Unsubscribe(anyId);
    assert uerr == Some(RtpPassthroughNotEnabled);
    var cerr := cam.Close();
    assert cerr == None;
  }
}
