/**
 * Properties of runs of `main`, stated over the event trace of `App.Main`:
 * the order of the registration steps, the show-then-acknowledge sequence of a
 * download, and how one command's effect on the keyring decides the next one.
 */
module Properties {
  import opened Basics
  import opened Messages
  import opened Api
  import opened App

  /** Where an event belongs in a registration: login, then device, then store. */
  function Phase(e: Event): nat
  {
    match e
    case LoginPost(_) => 0
    case DevicePost(_) => 1
    case KeyringWrite(_, _) => 2
    case _ => 3
  }

  /** The events are login requests, then device requests, then storing, and nothing else. */
  predicate RegistrationOrder(events: seq<Event>)
  {
    (forall k :: 0 <= k < |events| ==> Phase(events[k]) <= 2)
    && (forall j, k :: 0 <= j < k < |events| ==> Phase(events[j]) <= Phase(events[k]))
  }

  predicate Stores(events: seq<Event>)
  {
    exists k :: 0 <= k < |events| && events[k].KeyringWrite?
  }

  predicate PostsDevice(events: seq<Event>)
  {
    exists k :: 0 <= k < |events| && events[k].DevicePost?
  }

  predicate Acknowledges(events: seq<Event>)
  {
    exists k :: 0 <= k < |events| && events[k].Acknowledge?
  }

  predicate ShowsAny(events: seq<Event>)
  {
    exists k :: 0 <= k < |events| && events[k].Show?
  }

  /**
   * Register on an empty keyring logs in, then registers the device, then stores
   * both items, in that order; it stores exactly when it succeeds, and then it
   * stores the secret the login returned and the id the registration returned.
   * A failed login stops the run before any registration request.
   */
  lemma RegisterSteps(w: World)
    requires Conforms(Register, w)
    ensures var o := Main(Register, Store(None, None), w);
            RegistrationOrder(o.events)
            && (Stores(o.events) <==> o.result.Ok?)
            && (o.result.Err? ==> o.store == Store(None, None))
            && (PostsDevice(o.events) ==> Login(w.login).result.Ok?)
            && (Login(w.login).result.Err? ==> o.events == Login(w.login).events)
            && (o.result.Ok? ==>
                  var secret := Login(w.login).result.value;
                  var id := RegisterDevice(secret, w.device).result.value;
                  o.store == Store(Some(secret), Some(id))
                  && o.events == Login(w.login).events + RegisterDevice(secret, w.device).events
                                 + [KeyringWrite(secret, id)])
  {
    var o := Main(Register, Store(None, None), w);
    var login := Login(w.login);
    if login.result.Ok? {
      var device := RegisterDevice(login.result.value, w.device);
      var tail := if device.result.Ok? then [KeyringWrite(login.result.value, device.result.value)] else [];
      assert o.events == login.events + device.events + tail;
      forall k | 0 <= k < |o.events|
        ensures Phase(o.events[k]) == if k < |login.events| then 0 else if k < |login.events| + |device.events| then 1 else 2
      {
        if k < |login.events| {
          assert o.events[k] == login.events[k];
        } else if k < |login.events| + |device.events| {
          assert o.events[k] == device.events[k - |login.events|];
        }
      }
      if device.result.Ok? {
        assert o.events[|o.events| - 1].KeyringWrite?;
      }
    } else {
      assert !PostsDevice(o.events) by {
        forall k | 0 <= k < |o.events| ensures !o.events[k].DevicePost? {
          assert o.events[k].LoginPost?;
        }
      }
      assert !Stores(o.events) by {
        forall k | 0 <= k < |o.events| ensures !o.events[k].KeyringWrite? {
          assert o.events[k].LoginPost?;
        }
      }
    }
  }

  /** With an empty list from the server, Download fetches and does nothing else. */
  lemma DownloadEmptyBatch(s: Store, w: World)
    requires Registered(s) && Conforms(Download, w)
    requires w.fetch.Answer? && w.fetch.body.messages == Some([])
    ensures Main(Download, s, w) == Outcome(Ok(()), [FetchMessages(s.secret.value, s.deviceId.value)], s)
  {
  }

  /**
   * With a non-empty list whose notifications all appear, Download fetches, shows
   * every message in batch order, and only then acknowledges the batch once, with
   * its acknowledgement id; the outcome is that of the acknowledgement.
   */
  lemma DownloadShowsThenAcknowledges(s: Store, w: World, batch: seq<Message>)
    requires Registered(s) && Conforms(Download, w)
    requires w.fetch.Answer? && w.fetch.body.messages == Some(batch) && batch != []
    requires Displayed(|batch|, w.failingShow) == |batch|
    ensures var o := Main(Download, s, w);
            o.events == [FetchMessages(s.secret.value, s.deviceId.value)] + Shows(batch)
                        + [Acknowledge(s.deviceId.value, s.secret.value, AckId(batch))]
            && (o.result.Ok? <==> w.ack.Answer?)
  {
    var c := Credentials(s.secret.value, s.deviceId.value);
    assert Main(Download, s, w) == DownloadWith(c, s, w);
    var fetched := DownloadMessages(Some(c), w.fetch);
    assert fetched == Effect(Ok(Some(batch)), [FetchMessages(c.secret, c.deviceId)]);
    var ack := DeleteMessages(Some(c), batch, w.ack);
    assert ack.events == [Acknowledge(c.deviceId, c.secret, AckId(batch))];
    assert batch[..|batch|] == batch;
  }

  /**
   * When the notification at index `n` cannot be shown, Download stops there: the
   * messages before it are shown in order and nothing is acknowledged.
   */
  lemma DownloadStopsAtFailedShow(s: Store, w: World, batch: seq<Message>)
    requires Registered(s) && Conforms(Download, w)
    requires w.fetch.Answer? && w.fetch.body.messages == Some(batch)
    requires Displayed(|batch|, w.failingShow) < |batch|
    ensures var o := Main(Download, s, w);
            var n := w.failingShow.value;
            o == Outcome(Err(NotifyFailed), [FetchMessages(s.secret.value, s.deviceId.value)] + Shows(batch[..n]), s)
            && !Acknowledges(o.events)
  {
    var o := Main(Download, s, w);
    var n := w.failingShow.value;
    forall k | 0 <= k < |o.events| ensures !o.events[k].Acknowledge? {
      if k > 0 {
        assert o.events[k] == Shows(batch[..n])[k - 1];
      }
    }
  }

  /**
   * A download answer without a `messages` key, or no answer at all, is an error:
   * nothing is shown and nothing is acknowledged.
   */
  lemma DownloadFailureIsNotEmptyBatch(s: Store, w: World)
    requires Registered(s) && Conforms(Download, w)
    requires w.fetch.NoReply? || w.fetch.body.messages.None?
    ensures var o := Main(Download, s, w);
            o.result.Err? && o.store == s
            && o.events == [FetchMessages(s.secret.value, s.deviceId.value)]
            && !ShowsAny(o.events) && !Acknowledges(o.events)
  {
  }

  /** A non-Register command on a keyring missing either item only prints a notice. */
  lemma UnregisteredCommandDoesNothing(cmd: Command, s: Store, w: World)
    requires cmd != Register && Conforms(cmd, w) && !Registered(s)
    ensures var o := Main(cmd, s, w);
            o.result.Ok? && o.store == s && !ShowsAny(o.events) && !Acknowledges(o.events)
            && forall k :: 0 <= k < |o.events| ==> o.events[k].Notice?
  {
  }

  /**
   * After a successful registration the device counts as registered: a second
   * Register is refused, and a Download fetches with exactly the secret and the
   * device id the registration obtained.
   */
  lemma RegisterThenUse(w1: World, w2: World, w3: World)
    requires Conforms(Register, w1) && Conforms(Register, w2) && Conforms(Download, w3)
    requires Main(Register, Store(None, None), w1).result.Ok?
    ensures var s := Main(Register, Store(None, None), w1).store;
            var secret := Login(w1.login).result.value;
            var id := RegisterDevice(secret, w1.device).result.value;
            Registered(s)
            && Main(Register, s, w2) == Outcome(Ok(()), [Notice(AlreadyRegistered)], s)
            && Main(Download, s, w3).events[0] == FetchMessages(secret, id)
  {
    RegisterSteps(w1);
  }

  /**
   * Delete forgets the device: afterwards every non-Register command only prints a
   * notice, and Register is no longer refused.
   */
  lemma DeleteThenUse(s: Store, cmd: Command, w: World)
    requires Registered(s) && Conforms(Delete, w) && Conforms(cmd, w)
    ensures var s' := Main(Delete, s, w).store;
            s' == Store(None, None)
            && (cmd != Register ==> Main(cmd, s', w) == Outcome(Ok(()), [Notice(NotRegistered)], s'))
            && (cmd == Register ==> Notice(AlreadyRegistered) !in Main(cmd, s', w).events)
  {
    if cmd == Register {
      RegisterSteps(w);
    }
  }
}
