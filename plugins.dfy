/**
 * consulalerting/plugins.py: one function per notification channel.  Each
 * walks the destinations the record shares with the channel configuration
 * and posts one request; hipchat, slack, mailgun and pagerduty return the
 * status code of the first destination's request, email keeps one SMTP
 * session for all destinations.
 *
 * The network is a parameter: `send` maps a request to the response the
 * server gives, or to an SSL failure.  A set of destinations is walked in
 * an order the model does not fix; the methods pick the next destination
 * with `:|` and return the order they used as a ghost witness.
 */
module Plugins {
  import opened Wrappers
  import opened Health
  import opened Json
  import Text
  import Seqs
  import opened ConsulHealthStruct

  const CONSUL_SENDER: string := "Consul"
  const ALERT_SUBJECT: string := "Consul Alert"
  const SLACK_URL: string := "https://slack.com/api/chat.postMessage"
  const PAGERDUTY_URL: string := "https://events.pagerduty.com/generic/2010-04-15/create_event.json"

  // ---- hipchat colour and notify flag -----------------------------------

  datatype Style = Style(color: string, notify: int)

  /** The values the two loop variables hold before the first destination. */
  const INITIAL_STYLE: Style := Style("yellow", 0)

  /** One pass of the if/elif chain: an unrecognised status keeps the previous values. */
  function HipchatStyle(status: Attr, prev: Style): Style
  {
    if status == Some(PASSING_STATE) then Style("green", 0)
    else if status == Some(WARNING_STATE) then Style("yellow", 1)
    else if status == Some(CRITICAL_STATE) then Style("red", 1)
    else if status == Some(UNKNOWN_STATE) then Style("gray", 1)
    else prev
  }

  predicate Recognised(status: Attr)
  {
    status in {Some(PASSING_STATE), Some(WARNING_STATE), Some(CRITICAL_STATE), Some(UNKNOWN_STATE)}
  }

  /**
   * Re-running the chain on every destination changes nothing after the
   * first one, so all destinations of a record get one style.
   */
  lemma HipchatStyleStable(status: Attr, prev: Style)
    ensures HipchatStyle(status, HipchatStyle(status, prev)) == HipchatStyle(status, prev)
    ensures Recognised(status) ==> HipchatStyle(status, prev) == HipchatStyle(status, INITIAL_STYLE)
    ensures !Recognised(status) ==> HipchatStyle(status, prev) == prev
  {
  }

  /**
   * Starting from yellow/0: only a problem (warning, critical, unknown)
   * notifies, only passing is green, and an unrecognised status is posted
   * as yellow without notifying.
   */
  lemma HipchatStyleMeaning(status: Attr)
    ensures HipchatStyle(status, INITIAL_STYLE).notify == 1 <==> Recognised(status) && status != Some(PASSING_STATE)
    ensures HipchatStyle(status, INITIAL_STYLE).color == "green" <==> status == Some(PASSING_STATE)
    ensures !Recognised(status) ==> HipchatStyle(status, INITIAL_STYLE) == Style("yellow", 0)
  {
    assert |"yellow"| != |"green"| && |"red"| != |"green"| && |"gray"| != |"green"|;
  }

  // ---- requests ---------------------------------------------------------

  /** The pagerduty event body `pagerduty_data`. */
  datatype PagerdutyEvent = PagerdutyEvent(serviceKey: Json, eventType: string, description: string, incidentKey: string)

  /** What the plugins hand to the HTTP client; fixed parameters are spelled out. */
  datatype Request =
    | HipchatPost(url: Json, roomId: int, sender: string, message: string, notify: int, color: string,
                  authToken: Json, verify: bool)
    | SlackPost(channel: Json, username: string, token: Json, text: string)
    | MailgunPost(endpoint: string, apiToken: Json, from: Json, to: Json, subject: string, text: string)
    | PagerdutyPost(event: PagerdutyEvent)

  /** The server's answer, or the SSL failure `requests` raises. */
  datatype Response = Response(statusCode: int) | SslFailure

  /** The hipchat request for one room, with the parameters evaluated in source order. */
  function HipchatRequest(style: Style, message: string, room: string, config: Dict): (r: Result<Request>)
    ensures r.Ok? ==> r.value.HipchatPost? && r.value.verify && r.value.sender == CONSUL_SENDER
                      && r.value.message == message && r.value.color == style.color && r.value.notify == style.notify
                      && Get(config, "url") == Some(r.value.url) && Get(config, "api_token") == Some(r.value.authToken)
    ensures Get(config, "url").None? ==> r == Err(KeyError)
  {
    var url :- Lookup(config, "url");
    var rooms :- Lookup(config, "rooms");
    var roomValue :- Index(rooms, room);
    var roomId :- PyInt(roomValue);
    var token :- Lookup(config, "api_token");
    Ok(HipchatPost(url, roomId, CONSUL_SENDER, message, style.notify, style.color, token, true))
  }

  /** A numeric room id stored as text is posted as that number. */
  lemma HipchatRoomIdFromText(style: Style, message: string, room: string, config: Dict, rooms: Dict, n: int)
    requires Get(config, "url").Some? && Get(config, "api_token").Some?
    requires Get(config, "rooms") == Some(JObj(rooms)) && Get(rooms, room) == Some(JStr(Text.IntToString(n)))
    ensures HipchatRequest(style, message, room, config).Ok?
    ensures HipchatRequest(style, message, room, config).value.roomId == n
  {
    PyIntOfDecimalText(n);
  }

  function SlackRequest(message: string, room: string, config: Dict): (r: Result<Request>)
    ensures r.Ok? ==> r.value.SlackPost? && r.value.username == CONSUL_SENDER && r.value.text == message
                      && Get(config, "api_token") == Some(r.value.token)
                      && Get(config, "rooms").Some? && Index(Get(config, "rooms").value, room) == Ok(r.value.channel)
  {
    var rooms :- Lookup(config, "rooms");
    var channel :- Index(rooms, room);
    var token :- Lookup(config, "api_token");
    Ok(SlackPost(channel, CONSUL_SENDER, token, message))
  }

  /** `"https://api.mailgun.net/v2/{domain}/messages"`. */
  function MailgunEndpoint(domain: string): string
  {
    "https://api.mailgun.net/v2/" + domain + "/messages"
  }

  /** Distinct domains post to distinct endpoints: the domain can be read back from the URL. */
  lemma MailgunEndpointInjective(domain1: string, domain2: string)
    requires MailgunEndpoint(domain1) == MailgunEndpoint(domain2)
    ensures domain1 == domain2
  {
    var url := MailgunEndpoint(domain1);
    assert domain1 == url[27..|url| - 9];
    assert MailgunEndpoint(domain2)[27..|url| - 9] == domain2;
  }

  /**
   * The endpoint and the credentials, read once before the loop: a
   * configuration without them raises even when there is no team.
   */
  function MailgunSetup(config: Dict): (r: Result<(string, Json)>)
    ensures r.Ok? ==> Get(config, "mailgun_domain").Some? && Get(config, "api_token") == Some(r.value.1)
    ensures r.Ok? && Get(config, "mailgun_domain").value.JStr? ==> r.value.0 == MailgunEndpoint(Get(config, "mailgun_domain").value.s)
  {
    var domain :- Lookup(config, "mailgun_domain");
    var domainText :- (match Render(domain) case Some(t) => Ok(t) case None => Err(TypeError));
    var token :- Lookup(config, "api_token");
    Ok((MailgunEndpoint(domainText), token))
  }

  function MailgunRequest(endpoint: string, token: Json, message: string, team: string, config: Dict): (r: Result<Request>)
    ensures r.Ok? ==> r.value.MailgunPost? && Get(config, "from").Some? && Get(config, "teams").Some?
    ensures r.Ok? ==> r.value == MailgunPost(endpoint, token, Get(config, "from").value, r.value.to, ALERT_SUBJECT, message)
    ensures r.Ok? ==> Index(Get(config, "teams").value, team) == Ok(r.value.to)
  {
    var from :- Lookup(config, "from");
    var teams :- Lookup(config, "teams");
    var to :- Index(teams, team);
    Ok(MailgunPost(endpoint, token, from, to, ALERT_SUBJECT, message))
  }

  // ---- pagerduty -----------------------------------------------------------

  /** "resolve" for a passing record, "trigger" for anything else. */
  function EventType(status: Attr): (r: string)
    ensures r == "resolve" <==> status == Some(PASSING_STATE)
    ensures r in {"resolve", "trigger"}
  {
    if status == Some(PASSING_STATE) then "resolve" else "trigger"
  }

  /** `"{node}/{CheckID}".format(...)`. */
  function IncidentKey(e: Entry): string
  {
    Str(GetAttr(e, "Node")) + "/" + Str(GetAttr(e, "CheckID"))
  }

  function PagerdutyRequest(o: HealthStruct, message: string, team: string, config: Dict): (r: Result<Request>)
    ensures r.Ok? ==> r.value.PagerdutyPost? && r.value.event.eventType == EventType(o.Status())
                      && r.value.event.description == message && r.value.event.incidentKey == IncidentKey(o.entry)
                      && Get(config, "teams").Some? && Index(Get(config, "teams").value, team) == Ok(r.value.event.serviceKey)
  {
    var teams :- Lookup(config, "teams");
    var serviceKey :- Index(teams, team);
    Ok(PagerdutyPost(PagerdutyEvent(serviceKey, EventType(o.Status()), message, IncidentKey(o.entry))))
  }

  /**
   * The event that resolves a recovery carries the incident key of the
   * event that triggered it: two records of one check share the key, and
   * only the passing one resolves.
   */
  lemma ResolveMatchesTrigger(now: HealthStruct, before: HealthStruct, message: string, team: string, config: Dict)
    requires now.Id() == before.Id()
    requires now.Status() == Some(PASSING_STATE) && before.Status() == Some(CRITICAL_STATE)
    requires PagerdutyRequest(before, message, team, config).Ok?
    ensures PagerdutyRequest(now, message, team, config).Ok?
    ensures PagerdutyRequest(now, message, team, config).value.event.incidentKey
         == PagerdutyRequest(before, message, team, config).value.event.incidentKey
    ensures PagerdutyRequest(now, message, team, config).value.event.eventType == "resolve"
    ensures PagerdutyRequest(before, message, team, config).value.event.eventType == "trigger"
  {
    assert now.Field("Node") == before.Field("Node") && now.Field("CheckID") == before.Field("CheckID");
  }

  // ---- delivery --------------------------------------------------------------

  /** `requests.post(...)`: the status code; an SSL failure is raised. */
  function Post(req: Request, send: Request -> Response): (r: Result<int>)
    ensures r.Ok? <==> send(req).Response?
  {
    match send(req)
    case Response(code) => Ok(code)
    case SslFailure => Err(SslError)
  }

  /**
   * What posting to one destination yields: the status code (a non-200 is
   * returned, not raised) and the requests that went out.
   */
  function Outcome(req: Result<Request>, send: Request -> Response): (r: (Result<Option<int>>, seq<Request>))
    ensures req.Err? ==> r == (Err(req.error), [])
    ensures req.Ok? && send(req.value).Response? ==> r == (Ok(Some(send(req.value).statusCode)), [req.value])
  {
    match req
    case Err(e) => (Err(e), [])
    case Ok(q) =>
      match Post(q, send)
      case Ok(code) => (Ok(Some(code)), [q])
      case Err(e) => (Err(e), [q])
  }

  /**
   * hipchat's outcome for one destination: the request, and after an SSL
   * failure the same request once more with verify=False, whose status
   * code or SSL failure is the result.
   */
  function HipchatOutcome(req: Result<Request>, send: Request -> Response): (r: (Result<Option<int>>, seq<Request>))
    requires req.Ok? ==> req.value.HipchatPost?
    ensures req.Err? ==> r == (Err(req.error), [])
    ensures req.Ok? && send(req.value).Response? ==> r == (Ok(Some(send(req.value).statusCode)), [req.value])
    ensures req.Ok? && send(req.value).SslFailure? ==>
              && r.1 == [req.value, req.value.(verify := false)]
              && (send(req.value.(verify := false)).Response? ==> r.0 == Ok(Some(send(req.value.(verify := false)).statusCode)))
              && (send(req.value.(verify := false)).SslFailure? ==> r.0 == Err(SslError))
  {
    match req
    case Err(e) => (Err(e), [])
    case Ok(q) =>
      match send(q)
      case Response(code) => (Ok(Some(code)), [q])
      case SslFailure =>
        match Post(q.(verify := false), send)
        case Ok(code) => (Ok(Some(code)), [q, q.(verify := false)])
        case Err(e) => (Err(e), [q, q.(verify := false)])
  }

  /**
   * The retry is made only after an SSL failure and differs from the first
   * request in the verify flag alone; the outcome is an error only when the
   * request cannot be built or both attempts fail with SSL errors.
   */
  lemma RetryOnlyOnSsl(req: Result<Request>, send: Request -> Response)
    requires req.Ok? ==> req.value.HipchatPost?
    ensures |HipchatOutcome(req, send).1| <= 2
    ensures |HipchatOutcome(req, send).1| == 2 <==> req.Ok? && send(req.value).SslFailure?
    ensures |HipchatOutcome(req, send).1| == 2 ==>
              var sent := HipchatOutcome(req, send).1;
              sent[0] == req.value && !sent[1].verify && sent[1].(verify := sent[0].verify) == sent[0]
    ensures HipchatOutcome(req, send).0.Err? <==>
              req.Err? || (send(req.value).SslFailure? && send(req.value.(verify := false)).SslFailure?)
  {
  }

  /**
   * The loop of slack, mailgun and pagerduty: it posts to the first
   * destination the set yields and returns that status code; no other
   * destination is posted to, and an empty set posts nothing.
   */
  method PostToFirst(destinations: set<string>, build: string -> Result<Request>, send: Request -> Response)
    returns (r: Result<Option<int>>, sent: seq<Request>, ghost first: string)
    ensures destinations == {} ==> r == Ok(None) && sent == []
    ensures destinations != {} ==> first in destinations && (r, sent) == Outcome(build(first), send)
    ensures |sent| <= 1
  {
    // The source's loop returns during its first iteration, so it is an `if`.
    first := "";
    if destinations != {} {
      var d :| d in destinations;
      first := d;
      r, sent := Outcome(build(d), send).0, Outcome(build(d), send).1;
      return;
    }
    return Ok(None), [], first;
  }

  /**
   * `notify_hipchat`: the style is reassigned on entering the loop, the
   * first room's request is posted (again without verification after an
   * SSL failure), and its status code is returned.
   */
  method NotifyHipchat(o: HealthStruct, message: string, commonNotifiers: set<string>, config: Dict,
                       send: Request -> Response)
    returns (r: Result<Option<int>>, sent: seq<Request>, ghost first: string)
    ensures commonNotifiers == {} ==> r == Ok(None) && sent == []
    ensures commonNotifiers != {} ==>
              first in commonNotifiers
              && (r, sent) == HipchatOutcome(HipchatRequest(HipchatStyle(o.Status(), INITIAL_STYLE), message, first, config), send)
    ensures |sent| <= 2
    ensures forall i :: 0 <= i < |sent| ==> sent[i].HipchatPost? && sent[i].color == HipchatStyle(o.Status(), INITIAL_STYLE).color
  {
    // The source's loop returns during its first iteration, so it is an `if`.
    var style := INITIAL_STYLE;
    first := "";
    if commonNotifiers != {} {
      var room :| room in commonNotifiers;
      first := room;
      style := HipchatStyle(o.Status(), style);
      var req := HipchatRequest(style, message, room, config);
      if req.Err? {
        return Err(req.error), [], first;
      }
      var response := send(req.value);
      if response.SslFailure? {
        var retry := req.value.(verify := false);
        response := send(retry);
        if response.SslFailure? {
          return Err(SslError), [req.value, retry], first;
        }
        return Ok(Some(response.statusCode)), [req.value, retry], first;
      }
      return Ok(Some(response.statusCode)), [req.value], first;
    }
    return Ok(None), [], first;
  }

  /** `notify_slack`: the first room's status code. */
  method NotifySlack(message: string, commonNotifiers: set<string>, config: Dict, send: Request -> Response)
    returns (r: Result<Option<int>>, sent: seq<Request>, ghost first: string)
    ensures commonNotifiers == {} ==> r == Ok(None) && sent == []
    ensures commonNotifiers != {} ==> first in commonNotifiers && (r, sent) == Outcome(SlackRequest(message, first, config), send)
    ensures |sent| <= 1
  {
    r, sent, first := PostToFirst(commonNotifiers, (room: string) => SlackRequest(message, room, config), send);
  }

  /** `notify_mailgun`: endpoint and credentials first, then the first team's status code. */
  method NotifyMailgun(message: string, commonNotifiers: set<string>, config: Dict, send: Request -> Response)
    returns (r: Result<Option<int>>, sent: seq<Request>, ghost first: string)
    ensures MailgunSetup(config).Err? ==> r == Err(MailgunSetup(config).error) && sent == []
    ensures MailgunSetup(config).Ok? && commonNotifiers == {} ==> r == Ok(None) && sent == []
    ensures MailgunSetup(config).Ok? && commonNotifiers != {} ==>
              first in commonNotifiers
              && (r, sent) == Outcome(MailgunRequest(MailgunSetup(config).value.0, MailgunSetup(config).value.1,
                                                          message, first, config), send)
    ensures |sent| <= 1
  {
    first := "";
    var setup := MailgunSetup(config);
    if setup.Err? {
      return Err(setup.error), [], first;
    }
    var (endpoint, token) := setup.value;
    r, sent, first := PostToFirst(commonNotifiers, (team: string) => MailgunRequest(endpoint, token, message, team, config), send);
  }

  /** `notify_pagerduty`: the first team's status code. */
  method NotifyPagerduty(o: HealthStruct, message: string, commonNotifiers: set<string>, config: Dict,
                         send: Request -> Response)
    returns (r: Result<Option<int>>, sent: seq<Request>, ghost first: string)
    ensures commonNotifiers == {} ==> r == Ok(None) && sent == []
    ensures commonNotifiers != {} ==>
              first in commonNotifiers && (r, sent) == Outcome(PagerdutyRequest(o, message, first, config), send)
    ensures |sent| <= 1
  {
    r, sent, first := PostToFirst(commonNotifiers, (team: string) => PagerdutyRequest(o, message, team, config), send);
  }

  // ---- email -------------------------------------------------------------------

  /** The commands `notify_email` issues on its SMTP session. */
  datatype SmtpCommand = Connect(address: Json) | Login(user: Json, password: Json)
                       | SendMail(from: Json, to: Json, body: string) | Quit

  /** The message: the three headers, an empty line and the text, joined by CRLF. */
  function EmailBody(from: string, to: string, message: string): string
  {
    Text.Join(["From: " + from, "To: " + to, "Subject: " + ALERT_SUBJECT, "", message], "\r\n")
  }

  /** The headers come first, one per line, and an empty line separates them from the text. */
  lemma EmailBodyLayout(from: string, to: string, message: string)
    ensures EmailBody(from, to, message) == "From: " + from + "\r\nTo: " + to + "\r\nSubject: Consul Alert\r\n\r\n" + message
  {
    var sep := "\r\n";
    var parts := ["From: " + from, "To: " + to, "Subject: " + ALERT_SUBJECT, "", message];
    assert parts[1..] == ["To: " + to, "Subject: " + ALERT_SUBJECT, "", message];
    assert parts[1..][1..] == ["Subject: " + ALERT_SUBJECT, "", message];
    assert parts[1..][1..][1..] == ["", message];
    assert parts[1..][1..][1..][1..] == [message];
    assert Text.Join(["", message], sep) == "" + sep + message;
    assert Text.Join([message], sep) == message;
    assert Text.Join(["Subject: " + ALERT_SUBJECT, "", message], sep) == "Subject: " + ALERT_SUBJECT + sep + ("" + sep + message);
    assert Text.Join(parts[1..], sep) == "To: " + to + sep + Text.Join(parts[1..][1..], sep);
    assert Text.Join(parts, sep) == "From: " + from + sep + Text.Join(parts[1..], sep);
  }

  /** The commands before the first message: connect, then log in iff both credentials are set. */
  function SmtpOpening(config: Dict): (r: Result<(seq<SmtpCommand>, Json, string)>)
    ensures r.Ok? ==> |r.value.0| >= 1 && r.value.0[0].Connect? && Quit !in r.value.0
    ensures r.Ok? ==> Get(config, "from") == Some(r.value.1)
    ensures r.Ok? ==> Get(config, "username").Some?
    ensures r.Ok? ==>
              (|r.value.0| == 2
               <==> JsonTruthy(Get(config, "username").value) && Get(config, "password").Some?
                    && JsonTruthy(Get(config, "password").value))
    ensures r.Ok? && |r.value.0| == 2 ==> r.value.0[1] == Login(Get(config, "username").value, Get(config, "password").value)
  {
    var address :- Lookup(config, "mail_domain_address");
    var user :- Lookup(config, "username");
    var login :- (if JsonTruthy(user) then
                    var password :- Lookup(config, "password");
                    Ok(if JsonTruthy(password) then [Login(user, password)] else [])
                  else Ok([]));
    var from :- Lookup(config, "from");
    var fromText :- (match Render(from) case Some(t) => Ok(t) case None => Err(TypeError));
    Ok(([Connect(address)] + login, from, fromText))
  }

  /** The SendMail command for one team. */
  function TeamMail(from: Json, fromText: string, message: string, team: string, config: Dict): (r: Result<SmtpCommand>)
    ensures r.Ok? ==> r.value.SendMail? && r.value.from == from
                      && Get(config, "teams").Some? && Index(Get(config, "teams").value, team) == Ok(r.value.to)
                      && JoinJson(r.value.to, ", ").Ok?
                      && r.value.body == EmailBody(fromText, JoinJson(r.value.to, ", ").value, message)
  {
    var teams :- Lookup(config, "teams");
    var recipients :- Index(teams, team);
    var to :- JoinJson(recipients, ", ");
    Ok(SendMail(from, recipients, EmailBody(fromText, to, message)))
  }

  /**
   * `notify_email`: one session, one SendMail per team in the order the set
   * yields, one Quit at the end; a failure ends the session without Quit.
   * The ghost `failing` is the team whose mail could not be built.
   */
  method NotifyEmail(message: string, commonNotifiers: set<string>, config: Dict)
    returns (r: Result<()>, session: seq<SmtpCommand>, ghost order: seq<string>, ghost failing: string)
    ensures SmtpOpening(config).Err? ==> r == Err(SmtpOpening(config).error) && session == []
    ensures r.Ok? ==>
              SmtpOpening(config).Ok? && Seqs.Enumerates(order, commonNotifiers)
              && |session| == |SmtpOpening(config).value.0| + |order| + 1
              && session[..|SmtpOpening(config).value.0|] == SmtpOpening(config).value.0
              && (forall i :: 0 <= i < |order| ==>
                    TeamMail(SmtpOpening(config).value.1, SmtpOpening(config).value.2, message, order[i], config)
                    == Ok(session[|SmtpOpening(config).value.0| + i]))
              && session[|session| - 1] == Quit
    ensures r.Err? && SmtpOpening(config).Ok? ==>
              failing in commonNotifiers
              && TeamMail(SmtpOpening(config).value.1, SmtpOpening(config).value.2, message, failing, config) == Err(r.error)
    ensures r.Err? ==> Quit !in session
  {
    failing := "";
    var opening := SmtpOpening(config);
    if opening.Err? {
      return Err(opening.error), [], [], failing;
    }
    var (commands, from, fromText) := opening.value;
    r, session, order, failing := MailTeams(message, commonNotifiers, config, from, fromText, commands);
    if r.Err? {
      return;
    }
    var mails := session[|commands|..];
    assert session == commands + mails;
    session := commands + (mails + [Quit]);
  }

  /**
   * The loop of `notify_email`: one SendMail per team after the opening
   * commands.  It fails only at a team whose mail cannot be built, after
   * the mails of the teams before it.
   */
  method MailTeams(message: string, teams: set<string>, config: Dict, from: Json, fromText: string,
                   commands: seq<SmtpCommand>)
    returns (r: Result<()>, session: seq<SmtpCommand>, ghost order: seq<string>, ghost failing: string)
    requires Quit !in commands
    ensures |session| >= |commands| && session[..|commands|] == commands
    ensures Quit !in session
    ensures |session| == |commands| + |order|
    ensures forall i :: 0 <= i < |order| ==> TeamMail(from, fromText, message, order[i], config) == Ok(session[|commands| + i])
    ensures r.Ok? ==> Seqs.Enumerates(order, teams)
    ensures r.Err? ==>
              && failing in teams && failing !in order
              && TeamMail(from, fromText, message, failing, config) == Err(r.error)
              && forall i :: 0 <= i < |order| ==> order[i] in teams
  {
    order := [];
    failing := "";
    session := commands;
    var remaining := teams;
    while remaining != {}
      invariant remaining <= teams
      invariant forall i :: 0 <= i < |order| ==> order[i] in teams && order[i] !in remaining
      invariant forall x :: x in teams ==> x in remaining || x in order
      invariant forall i, j :: 0 <= i < j < |order| ==> order[i] != order[j]
      invariant |session| == |commands| + |order| && session[..|commands|] == commands
      invariant forall i :: 0 <= i < |order| ==> TeamMail(from, fromText, message, order[i], config) == Ok(session[|commands| + i])
      invariant Quit !in session
      decreases |remaining|
    {
      var team :| team in remaining;
      var mail := TeamMail(from, fromText, message, team, config);
      if mail.Err? {
        return Err(mail.error), session, order, team;
      }
      session := session + [mail.value];
      order := order + [team];
      remaining := remaining - {team};
    }
    return Ok(()), session, order, failing;
  }
}
