/** The dialog that connects a mail account: checking the form, sending the
    credentials to the provider and clearing the form after a success. */
module ConnectEmailModal {
  import opened Outcomes

  /** `EmailProvider`. */
  datatype Provider = Gmail | Outlook | Custom

  /** What the dialog sends to the provider; the server only for `custom`. */
  datatype ConnectRequest = ConnectRequest(
    email: string,
    password: string,
    provider: Provider,
    customServer: Option<string>)

  /** The provider's answer: a result object, or a thrown error. */
  datatype ProviderReply = Replied(success: bool, message: string) | Threw

  /** Why a submission is refused before any call. */
  datatype Rejection = MissingCredentials | MissingServer

  /** What the checks make of a submission: refused, or a request to send. */
  datatype Submission = Refused(reason: Rejection) | Send(request: ConnectRequest)

  /** How a submission ends; each case has its own notice. */
  datatype ConnectOutcome =
    | Rejected(reason: Rejection)
    | Connected(message: string)
    | NotConnected(message: string)
    | ConnectionError

  /** The two checks of `handleConnect`, in their order: both credentials
      first, then the server of a custom provider. */
  function Check(email: string, password: string, provider: Provider, customServer: string): (r: Option<Rejection>)
    ensures email == "" || password == "" ==> r == Some(MissingCredentials)
    ensures r == Some(MissingServer) <==> email != "" && password != "" && provider == Custom && customServer == ""
    ensures r == None <==> email != "" && password != "" && (provider != Custom || customServer != "")
  {
    if email == "" || password == "" then Some(MissingCredentials)
    else if provider == Custom && customServer == "" then Some(MissingServer)
    else None
  }

  /** The request `handleConnect` sends: the server travels only with a
      custom provider. */
  function RequestFor(email: string, password: string, provider: Provider, customServer: string): (q: ConnectRequest)
    ensures q.email == email && q.password == password && q.provider == provider
    ensures q.customServer.Some? <==> provider == Custom
    ensures q.customServer.Some? ==> q.customServer.value == customServer
  {
    ConnectRequest(email, password, provider, if provider == Custom then Some(customServer) else None)
  }

  /** How a provider's reply ends the submission. */
  function OutcomeOf(reply: ProviderReply): (o: ConnectOutcome)
    ensures o.Connected? <==> reply.Replied? && reply.success
    ensures o.Connected? || o.NotConnected? ==> reply.Replied? && o.message == reply.message
    ensures o == ConnectionError <==> reply.Threw?
  {
    match reply
    case Replied(success, message) => if success then Connected(message) else NotConnected(message)
    case Threw => ConnectionError
  }

  /** `getProviderLabel`. */
  function ProviderLabel(p: Provider): (s: string)
    ensures s != ""
    ensures p == Gmail ==> s == "Gmail"
    ensures p == Outlook ==> s == "Outlook"
    ensures p == Custom ==> s == "Custom Email"
  {
    match p
    case Gmail => "Gmail"
    case Outlook => "Outlook"
    case Custom => "Custom Email"
  }

  /** `getProviderPasswordLabel`: Gmail asks for an app password. */
  function PasswordLabel(p: Provider): (s: string)
    ensures s == "App Password" <==> p == Gmail
    ensures s != "App Password" ==> s == "Password"
  {
    if p == Gmail then "App Password" else "Password"
  }

  /** Different providers get different labels. */
  lemma ProviderLabelsDistinct(p: Provider, q: Provider)
    requires p != q
    ensures ProviderLabel(p) != ProviderLabel(q)
  {
    assert |"Gmail"| != |"Custom Email"| && |"Outlook"| != |"Custom Email"|;
    assert "Gmail"[0] != "Outlook"[0];
  }

  /** The form's state. */
  class ConnectForm {
    var email: string
    var password: string
    var customServer: string
    var provider: Provider
    var isConnecting: bool

    constructor ()
      ensures email == "" && password == "" && customServer == "" && provider == Gmail && !isConnecting
    {
      email := "";
      password := "";
      customServer := "";
      provider := Gmail;
      isConnecting := false;
    }

    /** `resetForm`: the three text fields are cleared; the provider stays. */
    method ResetForm()
      modifies this
      ensures email == "" && password == "" && customServer == ""
      ensures provider == old(provider) && isConnecting == old(isConnecting)
    {
      email := "";
      password := "";
      customServer := "";
    }

    /** `handleConnect` up to its `await`: a refused form changes nothing;
        otherwise the form is marked connecting and the request to send is
        returned. */
    method BeginConnect() returns (s: Submission)
      modifies this
      ensures var refused := Check(email, password, provider, customServer);
        s == (if refused.Some? then Refused(refused.value) else Send(RequestFor(email, password, provider, customServer)))
      ensures isConnecting == (s.Send? || old(isConnecting))
      ensures email == old(email) && password == old(password)
      ensures customServer == old(customServer) && provider == old(provider)
    {
      var refused := Check(email, password, provider, customServer);
      if refused.Some? {
        return Refused(refused.value);
      }
      isConnecting := true;
      s := Send(RequestFor(email, password, provider, customServer));
    }

    /** `handleConnect` after its `await`: a success clears the form, a
        failure or an error leaves it; the connecting flag drops either way. */
    method FinishConnect(reply: ProviderReply) returns (outcome: ConnectOutcome)
      modifies this
      ensures outcome == OutcomeOf(reply)
      ensures outcome.Connected? ==> email == "" && password == "" && customServer == ""
      ensures !outcome.Connected? ==>
        email == old(email) && password == old(password) && customServer == old(customServer)
      ensures provider == old(provider) && !isConnecting
    {
      outcome := OutcomeOf(reply);
      if outcome.Connected? {
        ResetForm();
      }
      isConnecting := false;
    }

    /** `handleConnect`, with the provider's service as `connect`. `sent` is
        the request handed to it, or `None` when the form is refused and no
        call is made. */
    method HandleConnect(connect: ConnectRequest -> ProviderReply) returns (outcome: ConnectOutcome, sent: Option<ConnectRequest>)
      modifies this
      ensures var refused := Check(old(email), old(password), old(provider), old(customServer));
        (sent.None? <==> refused.Some?) && (refused.Some? ==> outcome == Rejected(refused.value))
      ensures sent.Some? ==> sent.value == RequestFor(old(email), old(password), old(provider), old(customServer))
      ensures sent.Some? ==> outcome == OutcomeOf(connect(sent.value)) && !isConnecting
      ensures sent.None? ==> isConnecting == old(isConnecting)
      ensures outcome.Connected? ==> email == "" && password == "" && customServer == ""
      ensures !outcome.Connected? ==>
        email == old(email) && password == old(password) && customServer == old(customServer)
      ensures provider == old(provider)
    {
      var submission := BeginConnect();
      if submission.Refused? {
        return Rejected(submission.reason), None;
      }
      sent := Some(submission.request);
      outcome := FinishConnect(connect(submission.request));
    }
  }
}
