/** The edge function that emails a broker the review link: a fixed chain of
    early returns from the request and the deployment's configuration to a
    status code and a JSON reply, with the provider's send as an input. */
module SendBrokerEmail {
  import opened Wrappers
  import opened Text

  // ---------------------------------------------------------------------------
  // Templates
  // ---------------------------------------------------------------------------

  /** The subject line, which is also the templates' heading. (The long
      texts here are written in short pieces; the pieces join to the
      source's text.) */
  const Subject := "Quick 2-sec favor " + "from your box truck " + "people \U{1F69A}\U{2728}"

  /** The HTML body up to the link, which opens an `href` attribute. */
  const HtmlHead := "\n<!doctype html>\n<html>\n"
    + "  <body style=\"font-family: Arial, Helvetica, sans-serif; color:#111;\">\n"
    + "    <h2>" + Subject + "</h2>\n"
    + "    <p>We're sending out a quick review link so brokers who work with us can share their experience.</p>\n"
    + "    <p>\n"
    + "      <a href=\""

  /** The HTML body after the link, starting with the quote that closes `href`. */
  const HtmlTail := "\" style=\"\n"
    + "        display:inline-block;\n"
    + "        background:#0d9488;\n"
    + "        color:#fff;\n"
    + "        padding:10px 20px;\n"
    + "        border-radius:6px;\n"
    + "        text-decoration:none;\n"
    + "      \">Drop Your Review Here</a>\n"
    + "    </p>\n"
    + "    <p>Thank you \U{2014} BTFS Team</p>\n"
    + "  </body>\n"
    + "</html>\n"

  /** `HTML_TEMPLATE(reviewLink)`: the link appears once, as the `href`. */
  function HtmlTemplate(reviewLink: string): string {
    HtmlHead + reviewLink + HtmlTail
  }

  /** Distinct links give distinct HTML bodies: the link is the only part of
      the body that varies. */
  lemma HtmlTemplateInjective(a: string, b: string)
    requires HtmlTemplate(a) == HtmlTemplate(b)
    ensures a == b
  {
    var n := |HtmlHead|;
    assert |a| == |b|;
    assert a == HtmlTemplate(a)[n..n + |a|];
    assert b == HtmlTemplate(b)[n..n + |b|];
  }

  const PlainIntro := "We're sending out " + "a quick review link " + "so brokers can share " + "their experience."
  const PlainLinkLabel := "Review link:"
  const PlainSignOff := "Thank anks you \U{2014} BTFS Team"

  /** The fixed lines of the plain-text body are single lines, told apart by
      their first letters. */
  lemma FixedLines()
    ensures '\n' !in Subject && '\n' !in PlainIntro && '\n' !in PlainLinkLabel && '\n' !in PlainSignOff
    ensures Subject[0] == 'Q' && PlainIntro[0] == 'W' && PlainLinkLabel[0] == 'R' && PlainSignOff[0] == 'T'
  {
    SubjectOneLine();
    IntroOneLine();
    LabelOneLine();
    SignOffOneLine();
    FixedLineInitials();
  }

  lemma SubjectOneLine() ensures '\n' !in Subject {}
  lemma IntroOneLine() ensures '\n' !in PlainIntro {}
  lemma LabelOneLine() ensures '\n' !in PlainLinkLabel {}
  lemma SignOffOneLine() ensures '\n' !in PlainSignOff {}
  lemma FixedLineInitials()
    ensures Subject[0] == 'Q' && PlainIntro[0] == 'W' && PlainLinkLabel[0] == 'R' && PlainSignOff[0] == 'T'
  {}

  /** Lines joined with '\n' between them. */
  function Unlines(ls: seq<string>): string
    requires |ls| > 0
  {
    if |ls| == 1 then ls[0] else ls[0] + "\n" + Unlines(ls[1..])
  }

  /** `text.split('\n')`. */
  function Lines(s: string): (r: seq<string>)
    ensures |r| > 0
    decreases |s|
  {
    if '\n' in s then
      assert |AfterFirst(s, '\n')| < |s| by { SplitAround(s, '\n'); }
      [BeforeFirst(s, '\n')] + Lines(AfterFirst(s, '\n'))
    else [s]
  }

  /** Splitting joined single lines gives those lines back. */
  lemma {:induction false} LinesUnlines(ls: seq<string>)
    requires |ls| > 0
    requires forall i :: 0 <= i < |ls| ==> '\n' !in ls[i]
    ensures Lines(Unlines(ls)) == ls
  {
    if |ls| == 1 {
      assert Unlines(ls) == ls[0];
    } else {
      LinesUnlines(ls[1..]);
      SplitJoined(ls[0], '\n', Unlines(ls[1..]));
      assert ls == [ls[0]] + ls[1..];
    }
  }

  /** The `${loadIdName ? `Load: ${loadIdName}\n\n` : ""}` part, as lines: the
      load line and a blank, or nothing. */
  function LoadLines(loadIdName: Option<string>): seq<string> {
    if Truthy(loadIdName) then ["Load: " + loadIdName.value, ""] else []
  }

  /** The lines of `PLAIN_TEMPLATE(reviewLink, loadIdName)`: the template
      opens and ends with a line break, hence the empty first and last lines. */
  function PlainLines(reviewLink: string, loadIdName: Option<string>): seq<string> {
    ["", Subject, "", PlainIntro, "", PlainLinkLabel, reviewLink, ""]
    + LoadLines(loadIdName)
    + ["", PlainSignOff, ""]
  }

  /** `PLAIN_TEMPLATE(reviewLink, loadIdName)`. */
  function PlainTemplate(reviewLink: string, loadIdName: Option<string>): string {
    Unlines(PlainLines(reviewLink, loadIdName))
  }

  /** For a link and a load name that are single lines, splitting the
      plain-text body at its line breaks gives back its lines: the heading,
      the link on a line of its own, and the load line only when the name is
      non-empty. */
  lemma PlainTemplateLines(reviewLink: string, loadIdName: Option<string>)
    requires '\n' !in reviewLink
    requires Truthy(loadIdName) ==> '\n' !in loadIdName.value
    ensures Lines(PlainTemplate(reviewLink, loadIdName)) == PlainLines(reviewLink, loadIdName)
  {
    FixedLines();
    var ls := PlainLines(reviewLink, loadIdName);
    forall i | 0 <= i < |ls| ensures '\n' !in ls[i] {
      if Truthy(loadIdName) && ls[i] == "Load: " + loadIdName.value {
        assert '\n' !in "Load: ";
      }
    }
    LinesUnlines(ls);
  }

  /** The plain-text body has a line `Load: <name>` exactly when the load
      name is non-empty, for a link and a name that are single lines and a
      link that does not itself start with "Load: ". */
  lemma PlainTemplateLoadLine(reviewLink: string, loadIdName: Option<string>, name: string)
    requires '\n' !in reviewLink && !StartsWith(reviewLink, "Load: ")
    requires Truthy(loadIdName) ==> '\n' !in loadIdName.value
    ensures ("Load: " + name) in Lines(PlainTemplate(reviewLink, loadIdName))
            <==> Truthy(loadIdName) && name == loadIdName.value
  {
    FixedLines();
    PlainTemplateLines(reviewLink, loadIdName);
    var line := "Load: " + name;
    assert StartsWith(line, "Load: ");
    assert line[0] == 'L';
    if Truthy(loadIdName) && line == "Load: " + loadIdName.value {
      assert name == line[6..] == loadIdName.value;
    }
  }

  // ---------------------------------------------------------------------------
  // Configuration
  // ---------------------------------------------------------------------------

  const DefaultFrom := "BTFS Dispatch <operations@boxtruckfs.com>"

  /** What the function reads from its environment when it starts. */
  datatype Config = Config(
    provider: string,
    fromEmail: string,
    resendKey: string,
    sendgridKey: string,
    disableSending: bool,
    disableAuth: bool)

  function EnvGet(env: map<string, string>, name: string): Option<string> {
    if name in env then Some(env[name]) else None
  }

  /** The provider name defaults to "resend" and is lower-cased; the two
      switches are on only for the exact text "true". */
  function ConfigOf(env: map<string, string>): Config {
    Config(Lower(OrElse(EnvGet(env, "EMAIL_PROVIDER"), "resend")),
           OrElse(EnvGet(env, "FROM_EMAIL"), DefaultFrom),
           OrElse(EnvGet(env, "RESEND_API_KEY"), ""),
           OrElse(EnvGet(env, "SENDGRID_API_KEY"), ""),
           EnvGet(env, "DISABLE_EMAIL_SENDING") == Some("true"),
           EnvGet(env, "DISABLE_AUTH") == Some("true"))
  }

  /** Environments whose provider names differ only in the case of ASCII
      letters select the same provider, and an unset or empty name selects
      "resend". */
  lemma ProviderSelection(env: map<string, string>, other: map<string, string>)
    ensures !Truthy(EnvGet(env, "EMAIL_PROVIDER")) ==> ConfigOf(env).provider == "resend"
    ensures Truthy(EnvGet(env, "EMAIL_PROVIDER")) && Truthy(EnvGet(other, "EMAIL_PROVIDER"))
            && Lower(env["EMAIL_PROVIDER"]) == Lower(other["EMAIL_PROVIDER"])
            ==> ConfigOf(env).provider == ConfigOf(other).provider
  {
    if !Truthy(EnvGet(env, "EMAIL_PROVIDER")) {
      assert Lower("resend") == "resend";
    }
  }

  // ---------------------------------------------------------------------------
  // The handler
  // ---------------------------------------------------------------------------

  /** What `req.json()` yields: unparseable text (read as `{}`), JSON null,
      or an object with the three fields (absent or non-text fields are
      `None`; any other JSON value reads like an empty object). */
  datatype JsonBody =
    | Unparseable
    | JsonNull
    | JsonObject(brokerEmail: Option<string>, loadIdName: Option<string>, loadLink: Option<string>)

  datatype Request = Request(httpMethod: string, authorization: Option<string>, body: JsonBody)

  /** What the provider's send call does, when it is made: resolve with a
      result, or throw (the text is `String(err)`). */
  datatype SendResult = Sent(result: string) | Threw(error: string)

  /** The message handed to the provider. */
  datatype Email = Email(provider: string, from: string, to: string, subject: string, html: string, text: string)

  /** The JSON reply: `{ error, details? }`, `{ ok, note }` or
      `{ ok, provider, result }`. */
  datatype Reply =
    | Failure(error: string, details: Option<string>)
    | Skipped(note: string)
    | Accepted(provider: string, result: string)

  /** The status, the reply and the message the provider was called with, if
      it was called. */
  datatype Response = Response(status: int, reply: Reply, email: Option<Email>)

  const AuthError := "Missing or invalid Authorization header"
  const MethodError := "Only POST allowed"
  const FieldsError := "brokerEmail and loadLink are required"
  const ServerError := "Unexpected server error"
  const SkippedNote := "Email sending disabled (DISABLE_EMAIL_SENDING=true)"

  /** `String(err)` for the TypeError that destructuring a null body throws. */
  const NullBodyDetails := "TypeError: Cannot destructure property 'brokerEmail' of 'body' as it is null."

  /** A present header starting with "Bearer "; the token is not inspected. */
  predicate BearerHeader(h: Option<string>) {
    Truthy(h) && StartsWith(h.value, "Bearer ")
  }

  predicate AuthPasses(cfg: Config, req: Request) {
    cfg.disableAuth || BearerHeader(req.authorization)
  }

  /** The body's fields after `.catch(() => ({}))`. */
  function Fields(b: JsonBody): (Option<string>, Option<string>, Option<string>) {
    match b
    case JsonObject(e, n, l) => (e, n, l)
    case _ => (None, None, None)
  }

  /** A request that gets past the authorization, method and field checks. */
  predicate Complete(cfg: Config, req: Request) {
    && AuthPasses(cfg, req)
    && req.httpMethod == "POST"
    && !req.body.JsonNull?
    && Truthy(Fields(req.body).0) && Truthy(Fields(req.body).2)
  }

  /** The configured provider is one the function knows and has a key for. */
  predicate ProviderReady(cfg: Config) {
    || (cfg.provider == "resend" && cfg.resendKey != "")
    || (cfg.provider == "sendgrid" && cfg.sendgridKey != "")
  }

  /** The message both providers are sent. */
  function EmailFor(cfg: Config, brokerEmail: string, loadIdName: Option<string>, loadLink: string): Email {
    Email(cfg.provider, cfg.fromEmail, brokerEmail, Subject, HtmlTemplate(loadLink), PlainTemplate(loadLink, loadIdName))
  }

  /** One provider's send: 200 with its result, or 500 naming the provider. */
  function Deliver(provider: string, failure: string, email: Email, send: SendResult): Response {
    match send
    case Sent(result) => Response(200, Accepted(provider, result), Some(email))
    case Threw(err) => Response(500, Failure(failure, Some(err)), Some(email))
  }

  /** The handler given to `serve`. */
  function Handle(cfg: Config, req: Request, send: SendResult): (r: Response)
    ensures r.status in {200, 400, 401, 405, 500}
  {
    if !AuthPasses(cfg, req) then Response(401, Failure(AuthError, None), None)
    else if req.httpMethod != "POST" then Response(405, Failure(MethodError, None), None)
    else if req.body.JsonNull? then Response(500, Failure(ServerError, Some(NullBodyDetails)), None)
    else
      var (brokerEmail, loadIdName, loadLink) := Fields(req.body);
      if !Truthy(brokerEmail) || !Truthy(loadLink) then Response(400, Failure(FieldsError, None), None)
      else if cfg.disableSending then Response(200, Skipped(SkippedNote), None)
      else
        var email := EmailFor(cfg, brokerEmail.value, loadIdName, loadLink.value);
        if cfg.provider == "resend" then
          if cfg.resendKey == "" then Response(500, Failure("Resend API key not configured", None), None)
          else Deliver("resend", "Resend send failed", email, send)
        else if cfg.provider == "sendgrid" then
          if cfg.sendgridKey == "" then Response(500, Failure("SendGrid key not configured", None), None)
          else Deliver("sendgrid", "SendGrid send failed", email, send)
        else Response(400, Failure("Unknown provider " + cfg.provider, None), None)
  }

  /** Authorization is checked first: without a bearer header (and with
      authorization on) every request gets 401, whatever its method and
      body; with one, no request gets 401. */
  lemma AuthorizationFirst(cfg: Config, req: Request, send: SendResult)
    ensures Handle(cfg, req, send).status == 401 <==> !AuthPasses(cfg, req)
    ensures !AuthPasses(cfg, req) ==> Handle(cfg, req, send).reply == Failure(AuthError, None)
  {
  }

  /** After authorization, any method but POST gets 405. */
  lemma OnlyPost(cfg: Config, req: Request, send: SendResult)
    ensures Handle(cfg, req, send).status == 405 <==> AuthPasses(cfg, req) && req.httpMethod != "POST"
  {
  }

  /** An unparseable body reads as empty and, like a body without a broker
      email or a link, gets 400. */
  lemma MissingFieldsRejected(cfg: Config, req: Request, send: SendResult)
    requires AuthPasses(cfg, req) && req.httpMethod == "POST"
    requires req.body.Unparseable? || (req.body.JsonObject? && (!Truthy(req.body.brokerEmail) || !Truthy(req.body.loadLink)))
    ensures Handle(cfg, req, send) == Response(400, Failure(FieldsError, None), None)
  {
  }

  /** The provider is called exactly for a complete request with sending on
      and a usable provider, and then with the broker's address and the two
      bodies built from the link. */
  lemma ProviderCalledIff(cfg: Config, req: Request, send: SendResult)
    ensures Handle(cfg, req, send).email.Some? <==> Complete(cfg, req) && !cfg.disableSending && ProviderReady(cfg)
    ensures Handle(cfg, req, send).email.Some? ==>
              var (e, n, l) := Fields(req.body);
              Handle(cfg, req, send).email.value == EmailFor(cfg, e.value, n, l.value)
  {
  }

  /** With sending switched off, a complete request gets 200 and the note,
      and no provider is called. */
  lemma DisabledSendingSkipsProvider(cfg: Config, req: Request, send: SendResult)
    requires Complete(cfg, req) && cfg.disableSending
    ensures Handle(cfg, req, send) == Response(200, Skipped(SkippedNote), None)
  {
  }

  /** The status is 200 exactly when sending is off or the called provider
      resolved. */
  lemma SuccessIff(cfg: Config, req: Request, send: SendResult)
    ensures Handle(cfg, req, send).status == 200 <==>
              Complete(cfg, req) && (cfg.disableSending || (ProviderReady(cfg) && send.Sent?))
  {
  }

  /** A provider that threw gets 500 with that provider's message and the
      thrown text; a missing key gets 500; an unknown provider gets 400. */
  lemma ProviderFailures(cfg: Config, req: Request, send: SendResult)
    requires Complete(cfg, req) && !cfg.disableSending
    ensures ProviderReady(cfg) && send.Threw? ==>
              Handle(cfg, req, send).status == 500
              && Handle(cfg, req, send).reply == Failure(if cfg.provider == "resend" then "Resend send failed"
                                                         else "SendGrid send failed", Some(send.error))
    ensures cfg.provider == "resend" && cfg.resendKey == "" ==>
              Handle(cfg, req, send) == Response(500, Failure("Resend API key not configured", None), None)
    ensures cfg.provider == "sendgrid" && cfg.sendgridKey == "" ==>
              Handle(cfg, req, send) == Response(500, Failure("SendGrid key not configured", None), None)
    ensures cfg.provider != "resend" && cfg.provider != "sendgrid" ==>
              Handle(cfg, req, send) == Response(400, Failure("Unknown provider " + cfg.provider, None), None)
  {
  }

  /** A body of JSON null passes the checks before it and then fails the
      destructuring, which the outer handler turns into 500. */
  lemma NullBodyIsServerError(cfg: Config, req: Request, send: SendResult)
    requires AuthPasses(cfg, req) && req.httpMethod == "POST" && req.body.JsonNull?
    ensures Handle(cfg, req, send) == Response(500, Failure(ServerError, Some(NullBodyDetails)), None)
  {
  }
}
