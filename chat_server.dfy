/** The chat server's in-memory core: the validators for names and messages,
    the per-user rate limiter, the bounded message history, the
    connected-users map and the identify/message handlers that tie them
    together. Socket transport is left to the caller: each handler returns
    what the server emits. */
module ChatServer {
  import opened Common

  const MaxHistory := 50
  const RateLimitWindow := 60000
  const MaxMessagesPerMinute := 10

  const InvalidNameError := "Nombre inválido (2-50 caracteres)"
  const IdentifyFailedError := "Error al identificar usuario"
  const NotIdentifiedError := "Debes identificarte primero"
  const InvalidMessageError := "Mensaje inválido (1-500 caracteres)"
  const RateLimitedError := "Espera un momento antes de enviar más mensajes"
  const SendFailedError := "Error al enviar mensaje"

  /** A JavaScript value as it arrives in a socket payload. */
  datatype JsValue =
    | Undefined
    | Null
    | Str(s: string)
    | Num(n: int)
    | Bool(b: bool)
    | Obj(fields: map<string, JsValue>)

  /** JavaScript truthiness. */
  predicate JsTruthy(v: JsValue)
  {
    match v
    case Undefined => false
    case Null => false
    case Str(s) => s != []
    case Num(n) => n != 0
    case Bool(b) => b
    case Obj(_) => true
  }

  /** Destructuring `const { key } = data`: throws on null and undefined,
      yields undefined for a missing property. */
  function Field(data: JsValue, key: string): (r: Option<JsValue>)
    ensures r.None? <==> data.Undefined? || data.Null?
  {
    match data
    case Undefined => None
    case Null => None
    case Obj(fields) => Some(if key in fields then fields[key] else Undefined)
    case _ => Some(Undefined)
  }

  /** `validateMessage`: a string of 1 to 500 characters. */
  function ValidMessage(message: JsValue): (b: bool)
    ensures b <==> message.Str? && 1 <= |message.s| <= 500
  {
    JsTruthy(message) && message.Str? && 1 <= |message.s| <= 500
  }

  /** The `user:identify` name check: a string of 2 to 50 characters. */
  function ValidName(name: JsValue): (b: bool)
    ensures b <==> name.Str? && 2 <= |name.s| <= 50
  {
    JsTruthy(name) && name.Str? && 2 <= |name.s| <= 50
  }

  /** A connected user's record (socket id, connection time and address are
      not modelled). */
  datatype User = User(name: Option<string>, phone: Option<string>, lastMessageTime: int, messageCount: nat)

  const NewUser := User(None, None, 0, 0)

  // ---------------------------------------------------------------------
  // Rate limiting

  /** The user record after the window check: a call more than a window
      after the last counted message starts a new window. */
  function Refreshed(u: User, now: int): (r: User)
    ensures now - u.lastMessageTime > RateLimitWindow ==> r.messageCount == 0 && r.lastMessageTime == now
    ensures now - u.lastMessageTime <= RateLimitWindow ==> r == u
    ensures r.name == u.name && r.phone == u.phone
  {
    if now - u.lastMessageTime > RateLimitWindow then u.(messageCount := 0, lastMessageTime := now) else u
  }

  /** `checkRateLimit` on a known user: the verdict and the updated record. */
  datatype RateOutcome = RateOutcome(allowed: bool, user: User)

  /** A call is allowed exactly when fewer than ten messages count in the
      current window; an allowed call counts one more and records `now`; a
      refused one changes nothing but the window reset. */
  function RateStep(u: User, now: int): (r: RateOutcome)
    ensures r.allowed <==> Refreshed(u, now).messageCount < MaxMessagesPerMinute
    ensures r.allowed ==>
      r.user.messageCount == Refreshed(u, now).messageCount + 1 && r.user.lastMessageTime == now
    ensures !r.allowed ==> r.user == Refreshed(u, now)
    ensures r.user.name == u.name && r.user.phone == u.phone
  {
    var v := Refreshed(u, now);
    if v.messageCount >= MaxMessagesPerMinute then RateOutcome(false, v)
    else RateOutcome(true, v.(messageCount := v.messageCount + 1, lastMessageTime := now))
  }

  /** The counter never exceeds ten. */
  lemma {:induction false} RateStepBounded(u: User, now: int)
    requires u.messageCount <= MaxMessagesPerMinute
    ensures RateStep(u, now).user.messageCount <= MaxMessagesPerMinute
  {
  }

  /** Runs the limiter over a sequence of call times; returns how many calls
      were allowed and the final record. */
  function RateRun(u: User, times: seq<int>): (r: (nat, User))
    decreases |times|
  {
    if times == [] then (0, u)
    else
      var o := RateStep(u, times[0]);
      var rest := RateRun(o.user, times[1..]);
      ((if o.allowed then 1 else 0) + rest.0, rest.1)
  }

  /** Calls that all fall within one window starting no later than the
      last counted message allow at most `10 - messageCount` messages,
      however many calls are made. */
  lemma {:induction false} AtMostTenPerWindow(u: User, start: int, times: seq<int>)
    requires u.messageCount <= MaxMessagesPerMinute
    requires start <= u.lastMessageTime
    requires forall i :: 0 <= i < |times| ==> start <= times[i] <= start + RateLimitWindow
    ensures RateRun(u, times).0 <= MaxMessagesPerMinute - u.messageCount
    decreases |times|
  {
    if times != [] {
      var o := RateStep(u, times[0]);
      assert Refreshed(u, times[0]) == u;
      assert forall i :: 0 <= i < |times[1..]| ==> start <= times[1..][i] <= start + RateLimitWindow by {
        forall i | 0 <= i < |times[1..]|
          ensures start <= times[1..][i] <= start + RateLimitWindow
        {
          assert times[1..][i] == times[i + 1];
        }
      }
      AtMostTenPerWindow(o.user, start, times[1..]);
    }
  }

  // ---------------------------------------------------------------------
  // History

  /** `push` then `shift` when over the limit. */
  function AppendBounded(history: seq<ChatMessage>, m: ChatMessage): (r: seq<ChatMessage>)
    ensures 1 <= |r| <= |history| + 1 && r[|r| - 1] == m
    ensures r == (history + [m])[|history| + 1 - |r|..]
    ensures r == history + [m] <==> |history| < MaxHistory
    ensures |history| >= MaxHistory ==> |r| == |history|
  {
    var h := history + [m];
    if |h| > MaxHistory then h[1..] else h
  }

  /** On a history within the limit, appending keeps it within the limit,
      puts the message last, and drops only the oldest entry when full. */
  lemma {:induction false} AppendBoundedRule(history: seq<ChatMessage>, m: ChatMessage)
    requires |history| <= MaxHistory
    ensures |AppendBounded(history, m)| <= MaxHistory
    ensures AppendBounded(history, m)[|AppendBounded(history, m)| - 1] == m
    ensures |history| < MaxHistory ==> AppendBounded(history, m) == history + [m]
    ensures |history| == MaxHistory ==> AppendBounded(history, m) == history[1..] + [m]
  {
    if |history| == MaxHistory {
      assert (history + [m])[1..] == history[1..] + [m];
    }
  }

  // ---------------------------------------------------------------------
  // Handler outcomes

  /** What the identify handler emits back. */
  datatype IdentifyReply = Identified | IdentifyError(msg: string)

  /** What the message handler emits: an error to the sender, or the new
      message to every client. */
  datatype MessageReply = MessageError(msg: string) | Broadcast(m: ChatMessage)

  /** The message the pipeline builds: its id is the user id, a dash and the
      time in digits. */
  function MakeMessage(userId: string, userName: string, text: string, idTime: nat, stampTime: int): (r: ChatMessage)
    ensures r.userId == userId && r.userName == userName && r.message == text && r.timestamp == stampTime
    ensures |r.id| > |userId| + 1 && r.id[..|userId| + 1] == userId + "-"
  {
    ChatMessage(userId + "-" + NatToString(idTime), userId, userName, text, stampTime)
  }

  /** The chat server's state. */
  class Server {
    var users: map<string, User>
    var history: seq<ChatMessage>

    ghost predicate Valid()
      reads this
    {
      && |history| <= MaxHistory
      && forall id :: id in users ==> users[id].messageCount <= MaxMessagesPerMinute
    }

    constructor ()
      ensures Valid() && users == map[] && history == []
    {
      users := map[];
      history := [];
    }

    /** A connection: the user is stored fresh; returns the listener count
        broadcast to everyone and the history sent to the newcomer. */
    method Connect(userId: string) returns (listeners: nat, sent: seq<ChatMessage>)
      requires Valid()
      modifies this
      ensures Valid()
      ensures users == old(users)[userId := NewUser] && history == old(history)
      ensures listeners == |users| && sent == history
    {
      users := users[userId := NewUser];
      listeners := |users|;
      sent := history;
    }

    /** A disconnection: the user is removed; returns the new listener count. */
    method Disconnect(userId: string) returns (listeners: nat)
      requires Valid()
      modifies this
      ensures Valid()
      ensures users == old(users) - {userId} && history == old(history)
      ensures listeners == |users|
    {
      users := users - {userId};
      listeners := |users|;
    }

    /** `checkRateLimit`: false for an unknown user; otherwise `RateStep`. */
    method CheckRateLimit(userId: string, now: int) returns (allowed: bool)
      requires Valid()
      modifies this
      ensures Valid() && history == old(history)
      ensures userId !in old(users) ==> !allowed && users == old(users)
      ensures userId in old(users) ==>
        allowed == RateStep(old(users)[userId], now).allowed
        && users == old(users)[userId := RateStep(old(users)[userId], now).user]
    {
      if userId !in users {
        return false;
      }
      RateStepBounded(users[userId], now);
      var o := RateStep(users[userId], now);
      users := users[userId := o.user];
      allowed := o.allowed;
    }

    /** Appends to the history, dropping the oldest entry past the limit. */
    method AppendHistory(m: ChatMessage)
      requires Valid()
      modifies this
      ensures Valid() && users == old(users)
      ensures history == AppendBounded(old(history), m)
    {
      history := history + [m];
      if |history| > MaxHistory {
        history := history[1..];
      }
    }

    /** `user:identify`: an invalid name is refused and nothing changes;
        otherwise the sanitized name and the hashed phone (absent when the
        phone is falsy) are stored for a known user. A truthy phone that is
        not a string makes the hashing library throw, which is reported and
        changes nothing. */
    method Identify(userId: string, data: JsValue, sanitize: string -> string, hash: string -> string)
      returns (reply: IdentifyReply)
      requires Valid()
      modifies this
      ensures Valid() && history == old(history)
      ensures Field(data, "name").None? ==> reply == IdentifyError(IdentifyFailedError) && users == old(users)
      ensures Field(data, "name").Some? && !ValidName(Field(data, "name").value) ==>
        reply == IdentifyError(InvalidNameError) && users == old(users)
      ensures reply == Identified ==>
        && Field(data, "name").Some? && ValidName(Field(data, "name").value)
        && var phone := Field(data, "phone").value;
           (userId in old(users) ==>
              users == old(users)[userId := old(users)[userId].(
                name := Some(sanitize(Field(data, "name").value.s)),
                phone := if JsTruthy(phone) && phone.Str? then Some(hash(phone.s)) else None)])
           && (userId !in old(users) ==> users == old(users))
      ensures reply != Identified ==> users == old(users)
      ensures Field(data, "name").Some? && ValidName(Field(data, "name").value) ==>
        (reply == Identified <==> !JsTruthy(Field(data, "phone").value) || Field(data, "phone").value.Str?)
    {
      var name := Field(data, "name");
      if name.None? {
        return IdentifyError(IdentifyFailedError);
      }
      if !ValidName(name.value) {
        return IdentifyError(InvalidNameError);
      }
      var phone := Field(data, "phone").value;
      if JsTruthy(phone) && !phone.Str? {
        return IdentifyError(IdentifyFailedError);
      }
      var sanitized := sanitize(name.value.s);
      var hashed := if JsTruthy(phone) then Some(hash(phone.s)) else None;
      if userId in users {
        users := users[userId := users[userId].(name := Some(sanitized), phone := hashed)];
      }
      reply := Identified;
    }

    /** `chat:message`: refused (history unchanged) for an unidentified
        user, an invalid message, or a rate-limited one; otherwise the
        sanitized message is appended and broadcast. `now` is the clock
        reading of the rate check, `idTime` and `stampTime` those of the id
        and the timestamp. */
    method OnMessage(userId: string, data: JsValue, now: int, idTime: nat, stampTime: int,
                     sanitize: string -> string)
      returns (reply: MessageReply)
      requires Valid()
      modifies this
      ensures Valid()
      ensures !(userId in old(users) && Truthy(old(users)[userId].name)) ==>
        reply == MessageError(NotIdentifiedError) && users == old(users) && history == old(history)
      ensures userId in old(users) && Truthy(old(users)[userId].name) && Field(data, "message").None? ==>
        reply == MessageError(SendFailedError) && users == old(users) && history == old(history)
      ensures userId in old(users) && Truthy(old(users)[userId].name) && Field(data, "message").Some?
              && !ValidMessage(Field(data, "message").value) ==>
        reply == MessageError(InvalidMessageError) && users == old(users) && history == old(history)
      ensures userId in old(users) && Truthy(old(users)[userId].name) && Field(data, "message").Some?
              && ValidMessage(Field(data, "message").value) ==>
        && users == old(users)[userId := RateStep(old(users)[userId], now).user]
        && (!RateStep(old(users)[userId], now).allowed ==>
              reply == MessageError(RateLimitedError) && history == old(history))
        && (RateStep(old(users)[userId], now).allowed ==>
              var m := MakeMessage(userId, old(users)[userId].name.value,
                                   sanitize(Field(data, "message").value.s), idTime, stampTime);
              reply == Broadcast(m) && history == AppendBounded(old(history), m))
    {
      if userId !in users || !Truthy(users[userId].name) {
        return MessageError(NotIdentifiedError);
      }
      var userName := users[userId].name.value;
      var message := Field(data, "message");
      if message.None? {
        return MessageError(SendFailedError);
      }
      if !ValidMessage(message.value) {
        return MessageError(InvalidMessageError);
      }
      var allowed := CheckRateLimit(userId, now);
      if !allowed {
        return MessageError(RateLimitedError);
      }
      var m := MakeMessage(userId, userName, sanitize(message.value.s), idTime, stampTime);
      AppendHistory(m);
      reply := Broadcast(m);
    }
  }
}
