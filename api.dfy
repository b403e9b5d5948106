/**
 * The requests `AppState` makes to the Pushover Open Client API and the way it
 * classifies the answers: login (with the two-factor retry), device registration,
 * message download and acknowledgement, and the rule for lines read from stdin.
 *
 * HTTP, form encoding and JSON decoding are not modelled: each request is recorded
 * as an event carrying its form fields, and each answer is an input.
 */
module Api {
  import opened Basics
  import opened Messages

  /** Why an operation failed (the `anyhow` errors the source returns with `?`). */
  datatype Error =
    | NoInput                      // a line read from stdin did not end in a newline
    | SendFailed                   // sending the request or decoding its JSON failed
    | UnhandledStatus(code: int)   // the server answered with a status the client does not handle
    | MissingCredentials           // no stored secret and device id were loaded
    | MissingMessagesKey           // the download answer has no `messages` key
    | NotifyFailed                 // the desktop notification could not be shown

  datatype Result<+T> = Ok(value: T) | Err(error: Error)

  /** The JSON body of an answer (`POOCAPIResponse`). */
  datatype Body = Body(status: int, secret: Option<string>, id: Option<string>, messages: Option<seq<Message>>)

  /** What came back for one request: nothing usable, or an HTTP status and a decoded body. */
  datatype Reply = NoReply | Answer(code: int, body: Body)

  const HttpOk := 200
  const HttpPreconditionFailed := 412

  predicate Answered(r: Reply, code: int)
  {
    r.Answer? && r.code == code
  }

  /** The stored credentials of a registered device. */
  datatype Credentials = Credentials(secret: string, deviceId: string)

  datatype NoticeKind = AlreadyRegistered | NotRegistered

  /** The observable effects of a run, in the order they happen. */
  datatype Event =
    | LoginPost(form: map<string, string>)                   // POST to users/login.json
    | DevicePost(form: map<string, string>)                  // POST to devices.json
    | KeyringWrite(secret: string, deviceId: string)         // both keyring items written
    | FetchMessages(secret: string, deviceId: string)        // GET messages.json
    | Show(title: string, body: string)                      // one desktop notification shown
    | Acknowledge(deviceId: string, secret: string, upTo: int64) // POST update_highest_message.json
    | KeyringDelete                                          // both keyring items deleted
    | Notice(kind: NoticeKind)                               // a message printed to the user

  /** What an operation returned, with the requests it made on the way. */
  datatype Effect<+T> = Effect(result: Result<T>, events: seq<Event>)

  // ---------------------------------------------------------------------------
  // Lines read from stdin

  predicate EndsWithNewline(line: string)
  {
    |line| > 0 && line[|line| - 1] == '\n'
  }

  /**
   * `line.strip_suffix("\n")`: a line without a final newline (end of input) is an
   * error; otherwise exactly one final newline is removed.
   */
  function StripNewline(line: string): (r: Result<string>)
    ensures r.Ok? <==> EndsWithNewline(line)
    ensures r.Ok? ==> r.value + "\n" == line
    ensures r.Err? ==> r.error == NoInput
  {
    if EndsWithNewline(line) then Ok(line[..|line| - 1]) else Err(NoInput)
  }

  /** Reading back what was typed: a typed line followed by Enter yields that line. */
  lemma StripTypedLine(s: string)
    ensures StripNewline(s + "\n") == Ok(s)
  {
    assert (s + "\n")[..|s|] == s;
  }

  // ---------------------------------------------------------------------------
  // Login

  /** What the user types and the server answers during a login. */
  datatype LoginInput = LoginInput(
    username: string,   // the line read after the "Username:" prompt
    password: string,   // the password from the hidden prompt
    first: Reply,       // the answer to the first login request
    token: string,      // the line read after the "2FA Token:" prompt
    second: Reply)      // the answer to the request resent with the token

  /** The server keeps to the shape the client asserts (status fields, secret on success). */
  predicate LoginConforms(i: LoginInput)
  {
    (match i.first
     case NoReply => true
     case Answer(code, b) =>
       if code == HttpOk then b.status == 1 && b.secret.Some? else b.status == 0)
    && (Answered(i.second, HttpOk) ==> i.second.body.secret.Some?)
  }

  function LoginForm(user: string, password: string): map<string, string>
  {
    map["email" := user, "password" := password]
  }

  /** The username once its newline is removed. */
  function User(i: LoginInput): string
    requires EndsWithNewline(i.username)
  {
    i.username[..|i.username| - 1]
  }

  /** The two-factor token once its newline is removed. */
  function Token(i: LoginInput): string
    requires EndsWithNewline(i.token)
  {
    i.token[..|i.token| - 1]
  }

  /**
   * `AppState::login`: 200 yields the secret, 412 leads to one resend of the same
   * form with a `twofa` field, which succeeds only on 200; any other status fails.
   */
  function Login(i: LoginInput): (e: Effect<string>)
    requires LoginConforms(i)
    ensures forall k :: 0 <= k < |e.events| ==> e.events[k].LoginPost?
    ensures !EndsWithNewline(i.username) ==> e == Effect(Err(NoInput), [])
    ensures EndsWithNewline(i.username) ==>
              1 <= |e.events| <= 2 && e.events[0].form == LoginForm(User(i), i.password)
    ensures |e.events| == 2 <==>
              EndsWithNewline(i.username) && Answered(i.first, HttpPreconditionFailed) && EndsWithNewline(i.token)
    ensures |e.events| == 2 ==> e.events[1].form == e.events[0].form["twofa" := Token(i)]
    ensures e.result.Ok? <==>
              EndsWithNewline(i.username) &&
              (Answered(i.first, HttpOk) ||
               (Answered(i.first, HttpPreconditionFailed) && EndsWithNewline(i.token) && Answered(i.second, HttpOk)))
    ensures e.result.Ok? && Answered(i.first, HttpOk) ==> e.result.value == i.first.body.secret.value
    ensures e.result.Ok? && !Answered(i.first, HttpOk) ==> e.result.value == i.second.body.secret.value
    ensures EndsWithNewline(i.username) && i.first.Answer? && i.first.code !in {HttpOk, HttpPreconditionFailed} ==>
              e == Effect(Err(UnhandledStatus(i.first.code)), [LoginPost(LoginForm(User(i), i.password))])
  {
    match StripNewline(i.username)
    case Err(err) => Effect(Err(err), [])
    case Ok(user) =>
      var form := LoginForm(user, i.password);
      match i.first
      case NoReply => Effect(Err(SendFailed), [LoginPost(form)])
      case Answer(code, body) =>
        if code == HttpPreconditionFailed then
          match StripNewline(i.token)
          case Err(err) => Effect(Err(err), [LoginPost(form)])
          case Ok(token) =>
            var sent := [LoginPost(form), LoginPost(form["twofa" := token])];
            match i.second
            case NoReply => Effect(Err(SendFailed), sent)
            case Answer(code2, body2) =>
              if code2 == HttpOk then Effect(Ok(body2.secret.value), sent)
              else Effect(Err(UnhandledStatus(code2)), sent)
        else if code == HttpOk then Effect(Ok(body.secret.value), [LoginPost(form)])
        else Effect(Err(UnhandledStatus(code)), [LoginPost(form)])
  }

  // ---------------------------------------------------------------------------
  // Device registration

  /** What the user types and the server answers during a device registration. */
  datatype DeviceInput = DeviceInput(
    name: string,   // the line read after the "Device name:" prompt
    reply: Reply)   // the answer to the registration request

  predicate DeviceConforms(i: DeviceInput)
  {
    match i.reply
    case NoReply => true
    case Answer(code, b) => if code == HttpOk then b.status == 1 && b.id.Some? else b.status == 0
  }

  function DeviceForm(secret: string, name: string): map<string, string>
  {
    map["secret" := secret, "os" := "O", "name" := name]
  }

  /**
   * `AppState::register_device`: registers this machine under the login secret;
   * 200 yields the device id, anything else fails. No request is sent when the
   * device name line is not newline-terminated.
   */
  function RegisterDevice(secret: string, i: DeviceInput): (e: Effect<string>)
    requires DeviceConforms(i)
    ensures !EndsWithNewline(i.name) ==> e == Effect(Err(NoInput), [])
    ensures EndsWithNewline(i.name) ==>
              e.events == [DevicePost(DeviceForm(secret, i.name[..|i.name| - 1]))]
    ensures e.result.Ok? <==> EndsWithNewline(i.name) && Answered(i.reply, HttpOk)
    ensures e.result.Ok? ==> e.result.value == i.reply.body.id.value
    ensures EndsWithNewline(i.name) && i.reply.Answer? && i.reply.code != HttpOk ==>
              e.result == Err(UnhandledStatus(i.reply.code))
  {
    match StripNewline(i.name)
    case Err(err) => Effect(Err(err), [])
    case Ok(name) =>
      var sent := [DevicePost(DeviceForm(secret, name))];
      match i.reply
      case NoReply => Effect(Err(SendFailed), sent)
      case Answer(code, body) =>
        if code == HttpOk then Effect(Ok(body.id.value), sent)
        else Effect(Err(UnhandledStatus(code)), sent)
  }

  // ---------------------------------------------------------------------------
  // Download and acknowledgement

  /** The client asserts that every download or acknowledgement answer has status 1. */
  predicate StatusOne(r: Reply)
  {
    r.Answer? ==> r.body.status == 1
  }

  /**
   * `AppState::download_messages`: without loaded credentials it fails before any
   * request; an answer without a `messages` key is an error, not an empty batch;
   * otherwise the list is classified, `None` exactly for an empty list.
   */
  function DownloadMessages(creds: Option<Credentials>, reply: Reply): (e: Effect<Option<seq<Message>>>)
    requires StatusOne(reply)
    ensures creds.None? ==> e == Effect(Err(MissingCredentials), [])
    ensures creds.Some? ==> e.events == [FetchMessages(creds.value.secret, creds.value.deviceId)]
    ensures e.result.Ok? <==> creds.Some? && reply.Answer? && reply.body.messages.Some?
    ensures creds.Some? && reply.Answer? && reply.body.messages.None? ==> e.result == Err(MissingMessagesKey)
    ensures e.result.Ok? ==> Unbatch(e.result.value) == reply.body.messages.value
    ensures e.result.Ok? ==> (e.result.value.None? <==> reply.body.messages.value == [])
    ensures e.result.Ok? && e.result.value.Some? ==> e.result.value.value != []
  {
    match creds
    case None => Effect(Err(MissingCredentials), [])
    case Some(c) =>
      var sent := [FetchMessages(c.secret, c.deviceId)];
      match reply
      case NoReply => Effect(Err(SendFailed), sent)
      case Answer(_, body) =>
        match body.messages
        case None => Effect(Err(MissingMessagesKey), sent)
        case Some(ms) => Effect(Ok(ClassifyBatch(ms)), sent)
  }

  /**
   * `AppState::delete_messages`: tells the server that every message up to the
   * batch's acknowledgement id has been seen. The id sent is at least 0 and at
   * least every id of the batch.
   */
  function DeleteMessages(creds: Option<Credentials>, batch: seq<Message>, reply: Reply): (e: Effect<()>)
    requires StatusOne(reply)
    ensures creds.None? ==> e == Effect(Err(MissingCredentials), [])
    ensures creds.Some? ==> |e.events| == 1 && e.events[0].Acknowledge?
    ensures creds.Some? ==> e.events[0].deviceId == creds.value.deviceId && e.events[0].secret == creds.value.secret
    ensures creds.Some? ==> 0 <= e.events[0].upTo && Bounds(e.events[0].upTo, batch)
    ensures creds.Some? && e.events[0].upTo != 0 ==> IsIdOf(e.events[0].upTo, batch)
    ensures e.result.Ok? <==> creds.Some? && reply.Answer?
  {
    match creds
    case None => Effect(Err(MissingCredentials), [])
    case Some(c) =>
      var sent := [Acknowledge(c.deviceId, c.secret, AckId(batch))];
      match reply
      case NoReply => Effect(Err(SendFailed), sent)
      case Answer(_, _) => Effect(Ok(()), sent)
  }
}
