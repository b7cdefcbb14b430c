/** The chat window's forms: the identify form's name checks, the send
    form's checks with its six-second cooldown, and the unread badge. */
module ChatModal {
  import opened Common
  import ChatServer

  const NameTooShortError := "El nombre debe tener al menos 2 caracteres"
  const NameTooLongError := "El nombre no puede tener más de 50 caracteres"
  const MessageTooLongError := "El mensaje no puede tener más de 500 caracteres"

  /** What submitting the identify form does. */
  datatype IdentifyOutcome = Rejected(error: string) | Accepted(identity: UserIdentity)

  /** `handleIdentify`: the trimmed name must have 2 to 50 characters; the
      phone is trimmed and dropped when empty. */
  function IdentifyOutcomeFor(name: string, phone: string): (r: IdentifyOutcome)
    ensures r.Rejected? <==> |Trim(name)| < 2 || |Trim(name)| > 50
    ensures |Trim(name)| < 2 ==> r == Rejected(NameTooShortError)
    ensures 2 <= |Trim(name)| && |Trim(name)| > 50 ==> r == Rejected(NameTooLongError)
    ensures r.Accepted? ==> r.identity.name == Trim(name)
    ensures r.Accepted? ==> (r.identity.phone == None <==> Trim(phone) == [])
    ensures r.Accepted? && Trim(phone) != [] ==> r.identity.phone == Some(Trim(phone))
  {
    var n := Trim(name);
    if |n| < 2 then Rejected(NameTooShortError)
    else if |n| > 50 then Rejected(NameTooLongError)
    else
      var p := Trim(phone);
      Accepted(UserIdentity(n, if p == [] then None else Some(p)))
  }

  /** A name the form accepts also passes the server's name check. */
  lemma {:induction false} AcceptedNamePassesServer(name: string, phone: string)
    requires IdentifyOutcomeFor(name, phone).Accepted?
    ensures ChatServer.ValidName(ChatServer.Str(IdentifyOutcomeFor(name, phone).identity.name))
  {
    var n := IdentifyOutcomeFor(name, phone).identity.name;
    assert n != [];
  }

  /** What submitting the send form decides. */
  datatype SendOutcome = Blocked | Empty | TooLong | Send(text: string)

  /** `handleSendMessage`'s checks, in order: cooldown, empty, too long. */
  function SendOutcomeFor(canSend: bool, input: string): (r: SendOutcome)
    ensures !canSend ==> r == Blocked
    ensures canSend ==> (r == Empty <==> Trim(input) == [])
    ensures canSend ==> (r == TooLong <==> |Trim(input)| > 500)
    ensures r.Send? <==> canSend && 1 <= |Trim(input)| <= 500
    ensures r.Send? ==> r.text == Trim(input)
  {
    if !canSend then Blocked
    else
      var t := Trim(input);
      if |t| == 0 then Empty
      else if |t| > 500 then TooLong
      else Send(t)
  }

  /** Every text the form sends passes the server's message check. */
  lemma {:induction false} SentTextPassesServer(canSend: bool, input: string)
    requires SendOutcomeFor(canSend, input).Send?
    ensures ChatServer.ValidMessage(ChatServer.Str(SendOutcomeFor(canSend, input).text))
  {
    var t := SendOutcomeFor(canSend, input).text;
    assert t != [];
  }

  /** The badge on the chat button: none at zero, "99+" above 99. */
  function BadgeText(unread: nat): (r: Option<string>)
    ensures r.None? <==> unread == 0
    ensures unread > 99 ==> r == Some("99+")
    ensures 0 < unread <= 99 ==> r == Some(NatToString(unread))
  {
    if unread == 0 then None
    else if unread > 99 then Some("99+")
    else Some(NatToString(unread))
  }

  /** The badge never grows beyond three characters. */
  lemma {:induction false} BadgeIsShort(unread: nat)
    requires unread > 0
    ensures 1 <= |BadgeText(unread).value| <= 3
  {
    if unread <= 99 {
      NatToStringLength(unread);
    }
  }

  /** Numbers below 100 print with at most two digits. */
  lemma {:induction false} NatToStringLength(n: nat)
    requires n < 100
    ensures |NatToString(n)| <= 2
  {
    if n >= 10 {
      assert n / 10 < 10;
    }
  }

  /** The state of the chat window's forms. `restorePending` says whether
      the cooldown timer started by a send is still to fire. */
  class ChatForm {
    var currentMessage: string
    var error: string
    var canSend: bool
    var restorePending: bool

    /** Sending is blocked exactly while a cooldown timer is pending. */
    ghost predicate Valid()
      reads this
    {
      canSend <==> !restorePending
    }

    constructor ()
      ensures Valid()
      ensures currentMessage == [] && error == [] && canSend && !restorePending
    {
      currentMessage := [];
      error := [];
      canSend := true;
      restorePending := false;
    }

    /** `handleIdentify`: on rejection shows the error and passes nothing on;
        on success passes the identity on and clears the error. */
    method HandleIdentify(name: string, phone: string) returns (identified: Option<UserIdentity>)
      modifies this
      ensures IdentifyOutcomeFor(name, phone).Rejected? ==>
        identified == None && error == IdentifyOutcomeFor(name, phone).error
      ensures IdentifyOutcomeFor(name, phone).Accepted? ==>
        identified == Some(IdentifyOutcomeFor(name, phone).identity) && error == []
      ensures currentMessage == old(currentMessage) && canSend == old(canSend)
      ensures restorePending == old(restorePending)
    {
      var outcome := IdentifyOutcomeFor(name, phone);
      if outcome.Rejected? {
        error := outcome.error;
        return None;
      }
      identified := Some(outcome.identity);
      error := [];
    }

    /** `handleSendMessage`: blocked or empty input changes nothing; a too
        long text shows the error; otherwise the trimmed text is sent, the
        input and error are cleared and the cooldown starts. */
    method HandleSend() returns (sent: Option<string>)
      requires Valid()
      modifies this
      ensures Valid()
      ensures var o := SendOutcomeFor(old(canSend), old(currentMessage));
        && (o.Blocked? || o.Empty? ==>
              sent == None && currentMessage == old(currentMessage) && error == old(error)
              && canSend == old(canSend) && restorePending == old(restorePending))
        && (o.TooLong? ==>
              sent == None && error == MessageTooLongError && currentMessage == old(currentMessage)
              && canSend == old(canSend) && restorePending == old(restorePending))
        && (o.Send? ==>
              sent == Some(o.text) && currentMessage == [] && error == [] && !canSend && restorePending)
    {
      var o := SendOutcomeFor(canSend, currentMessage);
      match o
      case Blocked => sent := None;
      case Empty => sent := None;
      case TooLong =>
        sent := None;
        error := MessageTooLongError;
      case Send(text) =>
        sent := Some(text);
        currentMessage := [];
        error := [];
        canSend := false;
        restorePending := true;
    }

    /** The six-second timer: sending is allowed again and the error cleared. */
    method FireRestore()
      requires Valid() && restorePending
      modifies this
      ensures Valid()
      ensures canSend && !restorePending && error == []
      ensures currentMessage == old(currentMessage)
    {
      canSend := true;
      restorePending := false;
      error := [];
    }

    /** Typing into the message box. */
    method Type(text: string)
      modifies this
      ensures currentMessage == text
      ensures error == old(error) && canSend == old(canSend) && restorePending == old(restorePending)
    {
      currentMessage := text;
    }
  }

  /** Two sends in a row before the timer fires: only the first goes out. */
  method SecondSendWaitsForCooldown(first: string, second: string)
    returns (a: Option<string>, b: Option<string>, c: Option<string>)
    requires SendOutcomeFor(true, first).Send? && SendOutcomeFor(true, second).Send?
    ensures a == Some(Trim(first)) && b == None && c == Some(Trim(second))
  {
    var f := new ChatForm();
    f.Type(first);
    a := f.HandleSend();
    f.Type(second);
    b := f.HandleSend();
    f.FireRestore();
    c := f.HandleSend();
  }
}
