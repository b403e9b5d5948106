/**
 * The command dispatch of `main`: register a device, delete the stored
 * credentials, or download, show and acknowledge the pending messages.
 *
 * The keyring is reduced to the two facts it stores (a secret and a device id);
 * every answer from the user, the server and the notification daemon is part of
 * a `World` given as input; what the run does is an ordered trace of events.
 * `Main` is the specification of one run, `RunCommand` the step-by-step method
 * that is proved to follow it.
 */
module App {
  import opened Basics
  import opened Messages
  import opened Api

  /** The subcommands of the command line. */
  datatype Command = Register | Delete | Download

  /** What the keyring holds for this application. */
  datatype Store = Store(secret: Option<string>, deviceId: Option<string>)

  predicate Registered(s: Store)
  {
    s.secret.Some? && s.deviceId.Some?
  }

  /** Everything a run receives from outside: typed lines and server and desktop answers. */
  datatype World = World(
    login: LoginInput,          // the login dialogue
    device: DeviceInput,        // the device registration dialogue
    fetch: Reply,               // the answer to the message download
    failingShow: Option<nat>,   // the index of the first notification that cannot be shown, if any
    ack: Reply)                 // the answer to the acknowledgement

  /** The answers the command's path relies on keep to the shape the client asserts. */
  predicate Conforms(cmd: Command, w: World)
  {
    (cmd == Register ==> LoginConforms(w.login) && DeviceConforms(w.device))
    && (cmd == Download ==> StatusOne(w.fetch) && StatusOne(w.ack))
  }

  /** What one run returns, what it did, and what the keyring holds afterwards. */
  datatype Outcome = Outcome(result: Result<()>, events: seq<Event>, store: Store)

  /** One `Show` per message, in batch order. */
  function Shows(ms: seq<Message>): (r: seq<Event>)
    ensures |r| == |ms|
    ensures forall i :: 0 <= i < |ms| ==> r[i] == Show(ms[i].title, ms[i].body)
    decreases |ms|
  {
    if ms == [] then [] else [Show(ms[0].title, ms[0].body)] + Shows(ms[1..])
  }

  /** How many of `n` notifications are shown before the first one that fails. */
  function Displayed(n: nat, failingShow: Option<nat>): (k: nat)
    ensures k <= n
    ensures k < n <==> failingShow.Some? && failingShow.value < n
  {
    if failingShow.Some? && failingShow.value < n then failingShow.value else n
  }

  /** Register on an empty keyring: log in, register the device, store both. */
  function RegisterFresh(s: Store, w: World): Outcome
    requires LoginConforms(w.login) && DeviceConforms(w.device)
  {
    var login := Login(w.login);
    match login.result
    case Err(err) => Outcome(Err(err), login.events, s)
    case Ok(secret) =>
      var device := RegisterDevice(secret, w.device);
      match device.result
      case Err(err) => Outcome(Err(err), login.events + device.events, s)
      case Ok(id) =>
        Outcome(Ok(()), login.events + device.events + [KeyringWrite(secret, id)], Store(Some(secret), Some(id)))
  }

  /** Download with loaded credentials: fetch, show every message, then acknowledge. */
  function DownloadWith(c: Credentials, s: Store, w: World): Outcome
    requires StatusOne(w.fetch) && StatusOne(w.ack)
  {
    var fetched := DownloadMessages(Some(c), w.fetch);
    match fetched.result
    case Err(err) => Outcome(Err(err), fetched.events, s)
    case Ok(None) => Outcome(Ok(()), fetched.events, s)
    case Ok(Some(batch)) =>
      var k := Displayed(|batch|, w.failingShow);
      var shown := fetched.events + Shows(batch[..k]);
      if k < |batch| then Outcome(Err(NotifyFailed), shown, s)
      else
        var ack := DeleteMessages(Some(c), batch, w.ack);
        Outcome(ack.result, shown + ack.events, s)
  }

  /**
   * One run of `main` on a keyring holding `s`. Register is refused when either
   * item is stored; every other command needs both; Delete clears both.
   */
  function Main(cmd: Command, s: Store, w: World): (o: Outcome)
    requires Conforms(cmd, w)
    ensures cmd == Register && (s.secret.Some? || s.deviceId.Some?) ==>
              o == Outcome(Ok(()), [Notice(AlreadyRegistered)], s)
    ensures cmd != Register && !Registered(s) ==> o == Outcome(Ok(()), [Notice(NotRegistered)], s)
    ensures cmd == Delete && Registered(s) ==> o == Outcome(Ok(()), [KeyringDelete], Store(None, None))
    ensures cmd == Download ==> o.store == s
    ensures cmd == Register ==> o.store == s || (o.result.Ok? && Registered(o.store))
  {
    if cmd == Register then
      if s.secret.Some? || s.deviceId.Some? then Outcome(Ok(()), [Notice(AlreadyRegistered)], s)
      else RegisterFresh(s, w)
    else if !Registered(s) then Outcome(Ok(()), [Notice(NotRegistered)], s)
    else
      var c := Credentials(s.secret.value, s.deviceId.value);
      match cmd
      case Delete => Outcome(Ok(()), [KeyringDelete], Store(None, None))
      case Download => DownloadWith(c, s, w)
  }

  // ---------------------------------------------------------------------------
  // The keyring and the run, step by step

  /**
   * `Secrets`: the keyring items of this application and the credentials held in
   * memory while the process runs.
   */
  class Secrets {
    var storedSecret: Option<string>     // keyring item of type "secret"
    var storedDeviceId: Option<string>   // keyring item of type "device_id"
    var secret: string
    var deviceId: string

    function Stored(): Store
      reads this
    {
      Store(storedSecret, storedDeviceId)
    }

    /** `Secrets::new`: opens the keyring as it is, with empty credentials in memory. */
    constructor (stored: Store)
      ensures Stored() == stored && secret == "" && deviceId == ""
    {
      storedSecret, storedDeviceId := stored.secret, stored.deviceId;
      secret, deviceId := "", "";
    }

    /** `Secrets::store_secrets`: writes both in-memory credentials to the keyring. */
    method StoreSecrets()
      modifies this`storedSecret, this`storedDeviceId
      ensures Stored() == Store(Some(secret), Some(deviceId))
    {
      storedSecret, storedDeviceId := Some(secret), Some(deviceId);
    }

    /** `Secrets::delete_secrets`: removes both keyring items. */
    method DeleteSecrets()
      modifies this`storedSecret, this`storedDeviceId
      ensures Stored() == Store(None, None)
    {
      storedSecret, storedDeviceId := None, None;
    }
  }

  /**
   * The `for message in m` loop of the Download command: shows each message of the
   * batch in order and stops at the first notification that fails.
   */
  method ShowBatch(batch: seq<Message>, failingShow: Option<nat>) returns (ok: bool, shown: seq<Event>)
    ensures ok <==> Displayed(|batch|, failingShow) == |batch|
    ensures shown == Shows(batch[..Displayed(|batch|, failingShow)])
  {
    shown := [];
    var i := 0;
    while i < |batch|
      invariant 0 <= i <= |batch|
      invariant i <= Displayed(|batch|, failingShow)
      invariant shown == Shows(batch[..i])
    {
      if failingShow == Some(i) {
        return false, shown;
      }
      shown := shown + [Show(batch[i].title, batch[i].body)];
      i := i + 1;
    }
    assert batch[..i] == batch;
    ok := true;
  }

  /** The Download command once both credentials are loaded: fetch, show, acknowledge. */
  method RunDownload(c: Credentials, s: Store, w: World) returns (r: Result<()>, trace: seq<Event>)
    requires StatusOne(w.fetch) && StatusOne(w.ack)
    ensures r == DownloadWith(c, s, w).result && trace == DownloadWith(c, s, w).events
  {
    var fetched := DownloadMessages(Some(c), w.fetch);
    trace := fetched.events;
    if fetched.result.Err? {
      return Err(fetched.result.error), trace;
    }
    match fetched.result.value {
      case None =>
        r := Ok(());
      case Some(batch) =>
        var ok, shown := ShowBatch(batch, w.failingShow);
        trace := trace + shown;
        if !ok {
          return Err(NotifyFailed), trace;
        }
        var ack := DeleteMessages(Some(c), batch, w.ack);
        trace := trace + ack.events;
        r := ack.result;
    }
  }

  /** The Register command on an empty keyring: log in, register, store. */
  method RunRegister(secrets: Secrets, w: World) returns (r: Result<()>, trace: seq<Event>)
    requires LoginConforms(w.login) && DeviceConforms(w.device)
    modifies secrets
    ensures var o := RegisterFresh(old(secrets.Stored()), w);
              r == o.result && trace == o.events && secrets.Stored() == o.store
    ensures r.Ok? ==> secrets.Stored() == Store(Some(secrets.secret), Some(secrets.deviceId))
  {
    var login := Login(w.login);
    trace := login.events;
    if login.result.Err? {
      return Err(login.result.error), trace;
    }
    secrets.secret := login.result.value;
    var device := RegisterDevice(secrets.secret, w.device);
    trace := trace + device.events;
    if device.result.Err? {
      return Err(device.result.error), trace;
    }
    secrets.deviceId := device.result.value;
    secrets.StoreSecrets();
    trace := trace + [KeyringWrite(secrets.secret, secrets.deviceId)];
    r := Ok(());
  }

  /**
   * `main` after argument parsing: opens the keyring holding `stored` with fresh
   * in-memory credentials (`Secrets::new`), runs `cmd` against it, and records what
   * it does in `trace`. The run is exactly the one `Main` specifies.
   */
  method RunCommand(cmd: Command, stored: Store, w: World) returns (r: Result<()>, trace: seq<Event>, secrets: Secrets)
    requires Conforms(cmd, w)
    ensures fresh(secrets)
    ensures var o := Main(cmd, stored, w);
              r == o.result && trace == o.events && secrets.Stored() == o.store
    ensures cmd != Register && Registered(stored) ==>
              secrets.secret == stored.secret.value && secrets.deviceId == stored.deviceId.value
    ensures cmd == Register && stored == Store(None, None) && r.Ok? ==>
              secrets.Stored() == Store(Some(secrets.secret), Some(secrets.deviceId))
  {
    secrets := new Secrets(stored);
    if cmd == Register {
      if secrets.storedSecret.Some? || secrets.storedDeviceId.Some? {
        return Ok(()), [Notice(AlreadyRegistered)], secrets;
      }
      r, trace := RunRegister(secrets, w);
      return;
    }
    if secrets.storedSecret.None? || secrets.storedDeviceId.None? {
      return Ok(()), [Notice(NotRegistered)], secrets;
    }
    secrets.secret, secrets.deviceId := secrets.storedSecret.value, secrets.storedDeviceId.value;
    if cmd == Delete {
      secrets.DeleteSecrets();
      return Ok(()), [KeyringDelete], secrets;
    }
    r, trace := RunDownload(Credentials(secrets.secret, secrets.deviceId), secrets.Stored(), w);
  }
}
