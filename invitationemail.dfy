/**
 * supabase/functions/send-invitation-email/index.ts: the edge function that
 * mails an invitation link. The request checks, the email pattern and the
 * link are modelled exactly; the caller lookup and the mail provider's reply
 * are oracle parameters.
 */
module InvitationEmail {
  import opened Wrappers
  import opened Strings

  const AppUrl: string := "https://kiki-packaging.vercel.app"
  const AcceptPath: string := "/accept-invitation?token="
  const Sender: string := "Kiki Packaging <no-reply@mail.kikicheesecake.com>"
  const Subject: string := "You've been invited to join Kiki Packaging"

  const MissingAuthorizationMessage: string := "Missing authorization header"
  const UnauthorizedMessage: string := "Unauthorized"
  const MissingFieldsMessage: string := "Missing required fields: email, name, or inviteToken"
  const InvalidEmailPrefix: string := "Invalid email format: "
  const SendFailedPrefix: string := "Failed to send email: "

  /** The CORS headers every response carries. */
  const CorsHeaders: seq<(string, string)> := [
    ("Access-Control-Allow-Origin", "*"),
    ("Access-Control-Allow-Headers", "authorization, x-client-info, apikey, content-type")
  ]
  const JsonHeaders: seq<(string, string)> := CorsHeaders + [("Content-Type", "application/json")]

  /** The JSON body's three fields; a missing one is `None`. */
  datatype EmailRequest = EmailRequest(email: Option<string>, name: Option<string>, inviteToken: Option<string>)

  /**
   * An incoming request. `body` is what `req.json()` yields: the fields, or
   * the parser's error message.
   */
  datatype Request = Request(httpMethod: string, authorization: Option<string>, body: Result<EmailRequest>)

  /** The message handed to the mail provider (the HTML around the link is left out). */
  datatype Mail = Mail(from: string, to: string, subject: string, recipientName: string, invitationUrl: string)

  /** The mail provider's reply: `res.ok`, and the reply body as text. */
  datatype ProviderReply = ProviderReply(ok: bool, data: string)

  datatype Body = PlainText(text: string) | Succeeded(data: string) | Failed(error: string)

  datatype Response = Response(status: int, body: Body, headers: seq<(string, string)>)

  /** What one invocation does: the response, and the mail it handed on, if any. */
  datatype Run = Run(response: Response, sent: Option<Mail>)

  /** JavaScript truthiness of an optional string field. */
  predicate Present(field: Option<string>) {
    field.Some? && field.value != ""
  }

  /** No whitespace and no `@`: the class `[^\s@]`, repeated. */
  predicate Plain(s: string) {
    forall i :: 0 <= i < |s| ==> !IsWhitespace(s[i]) && s[i] != '@'
  }

  /**
   * The pattern `^[^\s@]+@[^\s@]+\.[^\s@]+$` as a regular expression reads:
   * some split of `s` into a plain part, `@`, a plain part, `.`, a plain part.
   */
  ghost predicate MatchesEmailPattern(s: string) {
    exists at, dot :: 0 < at < dot - 1 && dot < |s| - 1 && s[at] == '@' && s[dot] == '.'
      && Plain(s[..at]) && Plain(s[at + 1..dot]) && Plain(s[dot + 1..])
  }

  /** The `@` occurs exactly once in `s`. */
  predicate OneAt(s: string) {
    var k := IndexOf(s, '@');
    k >= 0 && '@' !in s[k + 1..]
  }

  /**
   * The pattern stated directly: exactly one `@`, no whitespace, a non-empty
   * local part, and a `.` in the domain that is neither its first nor its
   * last character.
   */
  predicate IsEmailFormat(s: string) {
    OneAt(s)
    && (forall i :: 0 <= i < |s| ==> !IsWhitespace(s[i]))
    && var at := IndexOf(s, '@');
    var domain := s[at + 1..];
    at > 0 && exists k :: 0 < k < |domain| - 1 && domain[k] == '.'
  }

  /** The link the mail carries. */
  function InvitationUrl(token: string): (url: string)
    ensures StartsWith(url, AppUrl + AcceptPath)
    ensures url[|AppUrl + AcceptPath|..] == token
  {
    AppUrl + AcceptPath + token
  }

  /** The checks of the request body, in order; the result is the mail to send. */
  function CheckBody(body: Result<EmailRequest>): (r: Result<Mail>)
    ensures r.Ok? <==>
      body.Ok? && Present(body.value.email) && Present(body.value.name) && Present(body.value.inviteToken)
      && IsEmailFormat(body.value.email.value)
    ensures body.Err? ==> r == Err(body.error)
    ensures body.Ok? && !(Present(body.value.email) && Present(body.value.name) && Present(body.value.inviteToken)) ==>
      r == Err(MissingFieldsMessage)
    ensures r.Ok? ==>
      r.value.to == body.value.email.value && r.value.recipientName == body.value.name.value
      && r.value.invitationUrl == InvitationUrl(body.value.inviteToken.value)
      && r.value.from == Sender && r.value.subject == Subject
  {
    if body.Err? then Err(body.error)
    else
      var b := body.value;
      if !(Present(b.email) && Present(b.name) && Present(b.inviteToken)) then Err(MissingFieldsMessage)
      else if !IsEmailFormat(b.email.value) then Err(InvalidEmailPrefix + b.email.value)
      else Ok(Mail(Sender, b.email.value, Subject, b.name.value, InvitationUrl(b.inviteToken.value)))
  }

  /** The `catch` block: every thrown error becomes a 400 with the message. */
  function ErrorResponse(message: string): (r: Response)
    ensures r.status == 400 && r.body == Failed(message) && r.headers == JsonHeaders
  {
    Response(400, Failed(message), JsonHeaders)
  }

  /**
   * One invocation. `callerKnown` is whether `auth.getUser()` returned a user
   * without error; `reply` is the mail provider's answer, consulted only when
   * a mail is sent.
   */
  function Handle(req: Request, callerKnown: bool, reply: ProviderReply): (run: Run)
    ensures req.httpMethod == "OPTIONS" ==> run == Run(Response(200, PlainText("ok"), CorsHeaders), None)
    ensures run.response.status == 200 || run.response.status == 400
    ensures run.response.status == 400 <==> run.response.body.Failed?
    ensures req.httpMethod != "OPTIONS" && !Present(req.authorization) ==>
      run == Run(ErrorResponse(MissingAuthorizationMessage), None)
    ensures req.httpMethod != "OPTIONS" && Present(req.authorization) && !callerKnown ==>
      run == Run(ErrorResponse(UnauthorizedMessage), None)
    ensures run.sent.Some? <==>
      req.httpMethod != "OPTIONS" && Present(req.authorization) && callerKnown && CheckBody(req.body).Ok?
    ensures run.sent.Some? ==> run.sent == Some(CheckBody(req.body).value)
    ensures run.response.body.Succeeded? <==> run.sent.Some? && reply.ok
    ensures run.sent.Some? && !reply.ok ==> run.response.body == Failed(SendFailedPrefix + reply.data)
  {
    if req.httpMethod == "OPTIONS" then Run(Response(200, PlainText("ok"), CorsHeaders), None)
    else if !Present(req.authorization) then Run(ErrorResponse(MissingAuthorizationMessage), None)
    else if !callerKnown then Run(ErrorResponse(UnauthorizedMessage), None)
    else match CheckBody(req.body)
      case Err(m) => Run(ErrorResponse(m), None)
      case Ok(mail) =>
        if reply.ok then Run(Response(200, Succeeded(reply.data), JsonHeaders), Some(mail))
        else Run(ErrorResponse(SendFailedPrefix + reply.data), Some(mail))
  }

  // ---------------------------------------------------------------------------
  // The email pattern
  // ---------------------------------------------------------------------------

  lemma PlainSplit(s: string, i: int)
    requires 0 <= i <= |s|
    ensures Plain(s) <==> Plain(s[..i]) && Plain(s[i..])
  {
    if Plain(s[..i]) && Plain(s[i..]) {
      forall j | 0 <= j < |s| ensures !IsWhitespace(s[j]) && s[j] != '@' {
        if j < i {
          assert s[j] == s[..i][j];
        } else {
          assert s[j] == s[i..][j - i];
        }
      }
    }
  }

  /** A split the regular expression finds, read off the direct statement. */
  lemma FormatGivesPattern(s: string)
    requires IsEmailFormat(s)
    ensures MatchesEmailPattern(s)
  {
    var at := IndexOf(s, '@');
    var domain := s[at + 1..];
    var k :| 0 < k < |domain| - 1 && domain[k] == '.';
    var dot := at + 1 + k;
    assert s[dot] == '.';
    assert '@' !in s[..at];
    assert Plain(s[..at]);
    forall j | 0 <= j < |domain| ensures !IsWhitespace(domain[j]) && domain[j] != '@' {
      assert domain[j] == s[at + 1 + j];
    }
    assert Plain(domain);
    assert s[at + 1..][..k] == s[at + 1..dot];
    assert s[at + 1..][k + 1..] == s[dot + 1..];
    PlainSplit(s[at + 1..], k);
    PlainSplit(s[at + 1..][k..], 1);
    assert s[at + 1..][k..][1..] == s[dot + 1..];
  }

  /** The direct statement, read off a split the regular expression finds. */
  lemma PatternGivesFormat(s: string)
    requires MatchesEmailPattern(s)
    ensures IsEmailFormat(s)
  {
    var at, dot :| 0 < at < dot - 1 && dot < |s| - 1 && s[at] == '@' && s[dot] == '.'
      && Plain(s[..at]) && Plain(s[at + 1..dot]) && Plain(s[dot + 1..]);
    DomainPlain(s, at, dot);
    NoWhitespace(s, at);
    FirstAt(s, at);
    var domain := s[at + 1..];
    assert domain[dot - at - 1] == s[dot];
  }

  /** The domain of a split is plain: two plain parts around a `.`. */
  lemma DomainPlain(s: string, at: int, dot: int)
    requires 0 <= at < dot < |s| && s[dot] == '.' && Plain(s[at + 1..dot]) && Plain(s[dot + 1..])
    ensures Plain(s[at + 1..])
  {
    var domain := s[at + 1..];
    var k := dot - at - 1;
    forall j | 0 <= j < |domain| ensures domain[j] != '@' && !IsWhitespace(domain[j]) {
      if j < k {
        assert domain[j] == s[at + 1..dot][j];
      } else if j > k {
        assert domain[j] == s[dot + 1..][j - k - 1];
      } else {
        assert domain[j] == s[dot];
      }
    }
  }

  /** Plain parts around the `@` leave no whitespace anywhere. */
  lemma NoWhitespace(s: string, at: int)
    requires 0 <= at < |s| && s[at] == '@' && Plain(s[..at]) && Plain(s[at + 1..])
    ensures forall j :: 0 <= j < |s| ==> !IsWhitespace(s[j])
  {
    forall j | 0 <= j < |s| ensures !IsWhitespace(s[j]) {
      if j < at {
        assert s[j] == s[..at][j];
      } else if j > at {
        assert s[j] == s[at + 1..][j - at - 1];
      }
    }
  }

  /** An `@` with none before it is the one `indexOf` finds. */
  lemma FirstAt(s: string, at: int)
    requires 0 <= at < |s| && s[at] == '@' && Plain(s[..at])
    ensures IndexOf(s, '@') == at
  {
  }

  /**
   * The email test accepts exactly the addresses with one `@`, no whitespace,
   * a non-empty local part and a `.` strictly inside the domain.
   */
  lemma EmailPatternIff(s: string)
    ensures MatchesEmailPattern(s) <==> IsEmailFormat(s)
  {
    if IsEmailFormat(s) {
      FormatGivesPattern(s);
    }
    if MatchesEmailPattern(s) {
      PatternGivesFormat(s);
    }
  }

  /** An address of the usual shape is accepted. */
  lemma EmailAcceptedExample()
    ensures IsEmailFormat("a@b.co")
  {
    assert IndexOf("a@b.co", '@') == 1;
    assert "a@b.co"[2..][1] == '.';
  }

  /** A domain whose only `.` is its last or its first character is refused. */
  lemma EmailDotExamples()
    ensures !IsEmailFormat("a@b.")
    ensures !IsEmailFormat("a@.b")
  {
    assert IndexOf("a@b.", '@') == 1;
    assert IndexOf("a@.b", '@') == 1;
  }

  /** An empty local part, a second `@` and a space are refused. */
  lemma EmailAtExamples()
    ensures !IsEmailFormat("@b.co")
    ensures !IsEmailFormat("a@b@c.co")
  {
    assert IndexOf("@b.co", '@') == 0;
    assert IndexOf("a@b@c.co", '@') == 1;
    assert "a@b@c.co"[2..][1] == '@';
  }

  lemma EmailSpaceExample()
    ensures !IsEmailFormat("a b@c.co")
  {
    assert "a b@c.co"[1] == ' ';
  }

  /** The token sits at the end of the link and can be read back from it. */
  lemma InvitationUrlRoundTrip(token: string, other: string)
    ensures InvitationUrl(token) == InvitationUrl(other) <==> token == other
  {
    if InvitationUrl(token) == InvitationUrl(other) {
      assert InvitationUrl(token)[|AppUrl + AcceptPath|..] == token;
    }
  }

  /** A request that passes every check sends one mail, to the given address, linking the given token. */
  lemma WellFormedRequestSends(req: Request, reply: ProviderReply)
    requires req.httpMethod != "OPTIONS" && Present(req.authorization) && req.body.Ok?
    requires Present(req.body.value.email) && Present(req.body.value.name) && Present(req.body.value.inviteToken)
    requires IsEmailFormat(req.body.value.email.value)
    ensures var run := Handle(req, true, reply);
      run.sent.Some? && run.sent.value.to == req.body.value.email.value
      && run.sent.value.invitationUrl == AppUrl + AcceptPath + req.body.value.inviteToken.value
      && (run.response.status == 200 <==> reply.ok)
  {
  }
}
