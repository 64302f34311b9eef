/**
 * The Google Calendar routes: a single session slot holding the OAuth tokens (null
 * until a callback succeeds, cleared by disconnect and by an upstream 401), the
 * listing of upcoming events, and pushing a task to the calendar as a timed or an
 * all-day event. Google's replies (the token exchange, the event listing, the
 * insertion) are inputs; so is the end time of a timed event, which the route
 * computes as one hour after the start.
 */
module CalendarSync {
  import opened Wrappers
  import opened Http
  import opened Strings

  datatype Tokens = Tokens(accessToken: string, refreshToken: Option<string>)

  datatype StatusReport = StatusReport(configured: bool, connected: bool)

  /** Where the callback redirects: `/?calendar_connected=true` or `/?calendar_error=<reason>`. */
  datatype CallbackOutcome = Connected | CallbackFailed(reason: string)

  /** The authorisation request the user is redirected to. */
  datatype AuthRequest = AuthRequest(accessType: string, scopes: seq<string>, prompt: string)

  /** The start or end of an event as sent to Google. */
  datatype EventTime = Timed(dateTime: string, timeZone: string) | AllDay(date: string)

  datatype EventBody = EventBody(summary: string, description: string, start: EventTime, end: EventTime)

  /** The start or end of an event as Google lists it. */
  datatype ListedTime = ListedTime(dateTime: Option<string>, date: Option<string>)

  datatype GoogleEvent = GoogleEvent(
    id: string, summary: Option<string>, description: Option<string>,
    start: ListedTime, end: ListedTime)

  /** An entry of the /events reply. */
  datatype EventView = EventView(
    id: string, title: Option<string>, description: string,
    start: Option<string>, end: Option<string>, allDay: bool)

  /** A failed Google request, with the status code it carries. */
  datatype ApiError = ApiError(code: int)

  datatype SyncRequest = SyncRequest(
    title: Option<string>, description: Option<string>,
    dueDate: Option<string>, timeSlot: Option<string>)

  const TimeZone: string := "America/New_York"
  const DefaultDescription: string := "Created from Academic Dashboard"
  const SummaryPrefix: string := "\U{1F4DA} "
  const Scopes: seq<string> := [
    "https://www.googleapis.com/auth/calendar.readonly",
    "https://www.googleapis.com/auth/calendar.events"]

  /**
   * The event a task becomes: the title behind the book emoji, the description or a
   * fixed note, and with a time slot a start at that time on the due date (the end
   * given), without one an all-day event on the due date.
   */
  function BuildEvent(title: string, description: Option<string>, dueDate: string,
                      timeSlot: Option<string>, endIso: string): (e: EventBody)
    ensures e.summary == SummaryPrefix + title && e.summary[|SummaryPrefix|..] == title
    ensures e.description != ""
    ensures Truthy(description) ==> e.description == description.value
    ensures !Truthy(description) ==> e.description == DefaultDescription
    ensures e.start.AllDay? <==> !Truthy(timeSlot)
    ensures e.start.AllDay? ==> e.start.date == dueDate && e.end == e.start
    ensures Truthy(timeSlot) ==>
      && e.start.Timed? && |e.start.dateTime| > |dueDate|
      && e.start.dateTime[..|dueDate|] == dueDate
      && e.start.dateTime[|dueDate|] == 'T'
      && e.start.dateTime[|dueDate| + 1..] == timeSlot.value + ":00"
      && e.start.timeZone == TimeZone && e.end == Timed(endIso, TimeZone)
  {
    var start := if Truthy(timeSlot) then Timed(dueDate + "T" + timeSlot.value + ":00", TimeZone)
                 else AllDay(dueDate);
    var end := if Truthy(timeSlot) then Timed(endIso, TimeZone) else AllDay(dueDate);
    EventBody(SummaryPrefix + title, OrElse(description, DefaultDescription), start, end)
  }

  /** How Google lists an event it stored from a request body. */
  function AsListed(id: string, body: EventBody): GoogleEvent {
    GoogleEvent(id, Some(body.summary), Some(body.description), ListedAt(body.start), ListedAt(body.end))
  }

  function ListedAt(t: EventTime): ListedTime {
    match t
    case Timed(dt, _) => ListedTime(Some(dt), None)
    case AllDay(d) => ListedTime(None, Some(d))
  }

  /**
   * An event of the /events reply: the summary as title, the description or "", the
   * start and end date-time, else date; all-day exactly when there is no start time.
   */
  function ToEventView(e: GoogleEvent): (v: EventView)
    ensures v.id == e.id && v.title == e.summary
    ensures v.allDay <==> !Truthy(e.start.dateTime)
    ensures v.allDay ==> v.start == e.start.date
    ensures !v.allDay ==> v.start == e.start.dateTime
    ensures Truthy(e.description) ==> v.description == e.description.value
    ensures !Truthy(e.description) ==> v.description == ""
    ensures Truthy(e.end.dateTime) ==> v.end == e.end.dateTime
    ensures !Truthy(e.end.dateTime) ==> v.end == e.end.date
  {
    EventView(e.id, e.summary, OrElse(e.description, ""),
              OrOption(e.start.dateTime, e.start.date), OrOption(e.end.dateTime, e.end.date),
              !Truthy(e.start.dateTime))
  }

  /**
   * A synced task, listed back: its title carries the prefix, its description is the
   * one sent, and it is all-day exactly when the task had no time slot, in which case
   * it starts and ends on the due date.
   */
  lemma SyncedEventListed(id: string, title: string, description: Option<string>, dueDate: string,
                          timeSlot: Option<string>, endIso: string)
    requires dueDate != "" && endIso != ""
    ensures var v := ToEventView(AsListed(id, BuildEvent(title, description, dueDate, timeSlot, endIso)));
      && v.id == id
      && v.title == Some(SummaryPrefix + title)
      && v.description == OrElse(description, DefaultDescription)
      && (v.allDay <==> !Truthy(timeSlot))
      && (v.allDay ==> v.start == Some(dueDate) && v.end == Some(dueDate))
      && (!v.allDay ==> v.start == Some(dueDate + "T" + timeSlot.value + ":00") && v.end == Some(endIso))
  {
    var e := BuildEvent(title, description, dueDate, timeSlot, endIso);
    if Truthy(timeSlot) {
      assert e.start.dateTime != "";
    }
  }

  /** The session state of the calendar routes: the configured client and the tokens slot. */
  class CalendarSession {
    const clientId: Option<string>
    const clientSecret: Option<string>
    var tokens: Option<Tokens>

    /** At start-up nothing is connected. */
    constructor(clientId: Option<string>, clientSecret: Option<string>)
      ensures this.clientId == clientId && this.clientSecret == clientSecret
      ensures !Status().connected
    {
      this.clientId := clientId;
      this.clientSecret := clientSecret;
      tokens := None;
    }

    predicate Configured()
      reads this
    {
      Truthy(clientId) && Truthy(clientSecret)
    }

    /** GET /status: configured needs both client credentials, connected needs tokens. */
    function Status(): (s: StatusReport)
      reads this
      ensures s.connected <==> tokens.Some?
      ensures s.configured <==> Truthy(clientId) && Truthy(clientSecret)
    {
      StatusReport(Configured(), tokens.Some?)
    }

    /** GET /auth: 400 until both credentials are set, else the offline, consent-prompting request for the two scopes. */
    function Auth(): (r: Result<AuthRequest, HttpError>)
      reads this
      ensures r.Err? <==> !Status().configured
      ensures r.Err? ==> r.error == BadRequest
      ensures r.Ok? ==> r.value.scopes == Scopes && r.value.accessType == "offline" && r.value.prompt == "consent"
    {
      if !Configured() then Err(BadRequest) else Ok(AuthRequest("offline", Scopes, "consent"))
    }

    /**
     * GET /callback: an error from Google or a missing code leaves the session as it
     * was; otherwise the exchanged tokens are stored, unless the exchange fails.
     */
    method Callback(code: Option<string>, error: Option<string>, exchange: Result<Tokens, string>)
      returns (outcome: CallbackOutcome)
      modifies this
      ensures Truthy(error) ==> outcome == CallbackFailed(error.value) && tokens == old(tokens)
      ensures !Truthy(error) && !Truthy(code) ==> outcome == CallbackFailed("no_code") && tokens == old(tokens)
      ensures !Truthy(error) && Truthy(code) && exchange.Ok? ==> outcome == Connected && tokens == Some(exchange.value)
      ensures !Truthy(error) && Truthy(code) && exchange.Err? ==>
        outcome == CallbackFailed(exchange.error) && tokens == old(tokens)
      ensures outcome == Connected ==> Status().connected
    {
      if Truthy(error) {
        return CallbackFailed(error.value);
      }
      if !Truthy(code) {
        return CallbackFailed("no_code");
      }
      match exchange {
        case Ok(t) =>
          tokens := Some(t);
          outcome := Connected;
        case Err(message) =>
          outcome := CallbackFailed(message);
      }
    }

    /** POST /disconnect: the tokens are always dropped. */
    method Disconnect()
      modifies this
      ensures tokens == None
      ensures !Status().connected && Status().configured == old(Status().configured)
    {
      tokens := None;
    }

    /**
     * GET /events: 401 without tokens; otherwise the listing mapped to views. An
     * upstream 401 drops the tokens and answers 401; any other failure answers 500
     * and keeps them.
     */
    method Events(listing: Result<seq<GoogleEvent>, ApiError>) returns (r: Result<seq<EventView>, HttpError>)
      modifies this
      ensures old(tokens).None? ==> r == Err(Unauthorized) && tokens == old(tokens)
      ensures old(tokens).Some? && listing.Ok? ==>
        && r.Ok? && |r.value| == |listing.value|
        && (forall k :: 0 <= k < |r.value| ==> r.value[k] == ToEventView(listing.value[k]))
        && tokens == old(tokens)
      ensures old(tokens).Some? && listing.Err? && listing.error.code == 401 ==>
        r == Err(Unauthorized) && tokens == None
      ensures old(tokens).Some? && listing.Err? && listing.error.code != 401 ==>
        r == Err(ServerError) && tokens == old(tokens)
      ensures tokens == old(tokens) || tokens == None
    {
      if tokens.None? {
        return Err(Unauthorized);
      }
      match listing {
        case Ok(items) =>
          var views := seq(|items|, k requires 0 <= k < |items| => ToEventView(items[k]));
          r := Ok(views);
        case Err(e) =>
          if e.code == 401 {
            tokens := None;
            r := Err(Unauthorized);
          } else {
            r := Err(ServerError);
          }
      }
    }

    /**
     * POST /sync-task: 401 without tokens, checked before anything else; 400 without
     * a title or a due date; otherwise the event built from the task is sent, and the
     * reply is the new event's id, or 500 when the insertion fails. The session is
     * never changed, whatever Google answers.
     */
    method SyncTask(req: SyncRequest, endIso: string, insert: Result<string, ApiError>)
      returns (r: Result<string, HttpError>, sent: Option<EventBody>)
      ensures tokens.None? ==> r == Err(Unauthorized) && sent.None?
      ensures tokens.Some? && (!Truthy(req.title) || !Truthy(req.dueDate)) ==> r == Err(BadRequest) && sent.None?
      ensures sent.Some? <==> tokens.Some? && Truthy(req.title) && Truthy(req.dueDate)
      ensures sent.Some? ==>
        && sent.value == BuildEvent(req.title.value, req.description, req.dueDate.value, req.timeSlot, endIso)
        && (insert.Ok? ==> r == Ok(insert.value))
        && (insert.Err? ==> r == Err(ServerError))
    {
      if tokens.None? {
        return Err(Unauthorized), None;
      }
      if !Truthy(req.title) || !Truthy(req.dueDate) {
        return Err(BadRequest), None;
      }
      var body := BuildEvent(req.title.value, req.description, req.dueDate.value, req.timeSlot, endIso);
      sent := Some(body);
      r := if insert.Ok? then Ok(insert.value) else Err(ServerError);
    }
  }
}
