/**
 * The ClasseViva REST client (`ClasseVivaAPI`): login, the authenticated
 * GET/POST helpers that re-login and re-issue a request whenever the server
 * reports an expired token, the five list endpoints, and the attachment
 * download.
 *
 * The HTTP session is a scripted server: the sequence of replies it will
 * give, consumed one per request, and the log of requests sent. A request
 * sent after the script is exhausted fails with a transport error. Each
 * reply has a status, a Content-Type header, raw bytes and the result of
 * decoding them as JSON; a JSON object is reduced to the keys the client
 * reads.
 */
module Api {
  import opened Wrappers
  import opened Text
  import opened Records

  const BaseUrl := "https://web.spaggiari.eu/rest/v1"
  const LoginUrl := BaseUrl + "/auth/login/"

  type Bytes = seq<bv8>

  /** A decoded JSON object: the keys any endpoint or the login reads (None when absent). */
  datatype Payload = Payload(
    error: Option<string>,
    token: Option<string>,
    ident: Option<string>,
    firstName: Option<string>,
    lastName: Option<string>,
    grades: Option<seq<Grade>>,
    events: Option<seq<Absence>>,
    agenda: Option<seq<AgendaEvent>>,
    didacticts: Option<seq<Teacher>>,
    didactics: Option<seq<Teacher>>,
    items: Option<seq<Notice>>)

  /** The body decoded as JSON: an object, another JSON value, or not JSON at all. */
  datatype Body = Object(payload: Payload) | NonObject | Unparseable

  datatype HttpResponse = HttpResponse(status: int, contentType: string, raw: Bytes, body: Body)

  datatype Verb = GET | POST

  datatype Request =
    | LoginRequest(url: string, uid: string, pass: string)
    | StudentRequest(verb: Verb, url: string, authToken: string)

  /**
   * Why a call fails: bad credentials (`AuthenticationError`), a key the
   * login reply lacks (`KeyError`), a body that is not a JSON object, or a
   * request the server never answers.
   */
  datatype ApiError = AuthenticationFailed | MissingKey | Malformed | Transport

  /** The fields `login` assigns. */
  datatype Session = Session(token: Option<string>, studentId: Option<string>, firstName: Option<string>, lastName: Option<string>)

  /** What `login` returns: the student id and names. */
  datatype LoginInfo = LoginInfo(id: string, firstName: string, lastName: string)

  /** The whole state a client call reads and changes. */
  datatype Client = Client(username: string, password: string, session: Session, replies: seq<HttpResponse>, sent: seq<Request>)

  // ---------------------------------------------------------------------
  // Pure helpers
  // ---------------------------------------------------------------------

  /** The server reports bad credentials: the error text contains "authentication failed" in any case. */
  predicate AuthFailed(p: Payload) {
    Contains(Lower(p.error.GetOr("")), "authentication failed")
  }

  /** The server reports an expired token: the error text contains "auth token expired" in any case. */
  predicate Expired(p: Payload) {
    Contains(Lower(p.error.GetOr("")), "auth token expired")
  }

  /** `_base_student_url`: the student id is printed as "None" before the first login. */
  function StudentUrl(s: Session): string {
    BaseUrl + "/students/" + (if s.studentId.Some? then s.studentId.value else "None")
  }

  /** The URL `_get`/`_post` request for the given path segments. */
  function SegmentsUrl(s: Session, segs: seq<string>): string {
    StudentUrl(s) + "/" + Join(segs, "/")
  }

  /** The `Z-Auth-Token` header: the token, or "" when there is none. */
  function AuthToken(s: Session): string {
    OrText(s.token, Some("")).GetOr("")
  }

  /** A calendar date (`datetime` guarantees the ranges). */
  datatype Date = Date(year: nat, month: nat, day: nat)

  predicate ValidDate(d: Date) {
    1 <= d.year <= 9999 && 1 <= d.month <= 12 && 1 <= d.day <= 31
  }

  /**
   * `_fmt_date`: `strftime("%Y%m%d")`. Month and day are zero-padded to two
   * digits; the C library prints the year without padding.
   */
  function FmtDate(d: Date): (r: string)
    ensures forall i :: 0 <= i < |r| ==> IsDigit(r[i])
  {
    NatText(d.year) + Fixed(d.month, 2) + Fixed(d.day, 2)
  }

  lemma {:induction false} NatTextIsFixed(n: nat, w: nat)
    requires w >= 1 && Pow10(w - 1) <= n < Pow10(w)
    ensures NatText(n) == Fixed(n, w)
  {
    if w == 1 {
      assert n < 10;
    } else {
      NatTextIsFixed(n / 10, w - 1);
    }
  }

  /**
   * For four-digit years the formatted date is exactly eight digits, and
   * reading its fields back gives the year, the month and the day.
   */
  lemma FmtDateRoundTrip(d: Date)
    requires ValidDate(d) && d.year >= 1000
    ensures var s := FmtDate(d);
            && |s| == 8
            && DecimalValue(s[..4]) == d.year
            && DecimalValue(s[4..6]) == d.month
            && DecimalValue(s[6..]) == d.day
  {
    assert Pow10(3) == 1000 && Pow10(4) == 10000 by {
      assert Pow10(1) == 10;
      assert Pow10(2) == 100;
    }
    NatTextIsFixed(d.year, 4);
    var s := FmtDate(d);
    assert s[..4] == Fixed(d.year, 4);
    assert s[4..6] == Fixed(d.month, 2);
    assert s[6..] == Fixed(d.day, 2);
    FixedRoundTrip(d.year, 4);
    FixedRoundTrip(d.month, 2);
    FixedRoundTrip(d.day, 2);
  }

  /** Two different dates never format alike. */
  lemma FmtDateInjective(d1: Date, d2: Date)
    requires ValidDate(d1) && ValidDate(d2) && d1.year >= 1000 && d2.year >= 1000
    requires FmtDate(d1) == FmtDate(d2)
    ensures d1 == d2
  {
    FmtDateRoundTrip(d1);
    FmtDateRoundTrip(d2);
  }

  // ---------------------------------------------------------------------
  // Endpoint extractors
  // ---------------------------------------------------------------------

  /** `grades()`: the `grades` list, or [] when the key is absent. */
  function GradesOf(p: Payload): (r: seq<Grade>)
    ensures p.grades.Some? ==> r == p.grades.value
    ensures p.grades.None? ==> r == []
  {
    p.grades.GetOr([])
  }

  /** `absences()`: the `events` list, or []. */
  function AbsencesOf(p: Payload): (r: seq<Absence>)
    ensures p.events.Some? ==> r == p.events.value
    ensures p.events.None? ==> r == []
  {
    p.events.GetOr([])
  }

  /** `agenda(begin, end)`: the `agenda` list, or []. */
  function AgendaOf(p: Payload): (r: seq<AgendaEvent>)
    ensures p.agenda.Some? ==> r == p.agenda.value
    ensures p.agenda.None? ==> r == []
  {
    p.agenda.GetOr([])
  }

  /** `didactics()`: the misspelled `didacticts` key wins over `didactics`; [] when both are absent. */
  function DidacticsOf(p: Payload): (r: seq<Teacher>)
    ensures p.didacticts.Some? ==> r == p.didacticts.value
    ensures p.didacticts.None? && p.didactics.Some? ==> r == p.didactics.value
    ensures p.didacticts.None? && p.didactics.None? ==> r == []
  {
    p.didacticts.GetOr(p.didactics.GetOr([]))
  }

  /** `noticeboard()`: the `items` list, or []. */
  function NoticeboardOf(p: Payload): (r: seq<Notice>)
    ensures p.items.Some? ==> r == p.items.value
    ensures p.items.None? ==> r == []
  {
    p.items.GetOr([])
  }

  // ---------------------------------------------------------------------
  // Exchanges with the server
  // ---------------------------------------------------------------------

  /** One request: logged, answered by the next scripted reply if there is one. */
  function Send(c: Client, req: Request): (Client, Option<HttpResponse>) {
    if c.replies == [] then (c.(sent := c.sent + [req]), None)
    else (c.(replies := c.replies[1..], sent := c.sent + [req]), Some(c.replies[0]))
  }

  /**
   * The assignments of a login reply, in the order `login` makes them: each
   * key read that is absent raises, leaving the earlier assignments made.
   */
  function LoginAssign(c: Client, p: Payload): (Client, Result<LoginInfo, ApiError>) {
    if p.token.None? then (c, Err(MissingKey))
    else
      var s1 := c.session.(token := p.token);
      if p.ident.None? then (c.(session := s1), Err(MissingKey))
      else
        var s2 := s1.(studentId := Some(Digits(p.ident.value)));
        if p.firstName.None? then (c.(session := s2), Err(MissingKey))
        else
          var s3 := s2.(firstName := p.firstName);
          if p.lastName.None? then (c.(session := s3), Err(MissingKey))
          else (c.(session := s3.(lastName := p.lastName)), Ok(LoginInfo(Digits(p.ident.value), p.firstName.value, p.lastName.value)))
  }

  /** `login()`: POST the credentials, reject bad ones, store the session. */
  function LoginStep(c: Client): (r: (Client, Result<LoginInfo, ApiError>))
    ensures |r.0.replies| <= |c.replies|
    ensures r.0.sent == c.sent + [LoginRequest(LoginUrl, c.username, c.password)]
    ensures r.1 == Err(AuthenticationFailed) <==>
      c.replies != [] && c.replies[0].body.Object? && AuthFailed(c.replies[0].body.payload)
    ensures r.1 == Err(AuthenticationFailed) ==> r.0.session == c.session
    ensures r.1.Ok? ==>
      && c.replies != [] && c.replies[0].body.Object?
      && var p := c.replies[0].body.payload;
      && !AuthFailed(p)
      && p.token.Some? && p.ident.Some? && p.firstName.Some? && p.lastName.Some?
      && r.0.session == Session(p.token, Some(Digits(p.ident.value)), p.firstName, p.lastName)
      && r.1.value == LoginInfo(Digits(p.ident.value), p.firstName.value, p.lastName.value)
    ensures r.1.Ok? ==> forall i :: 0 <= i < |r.1.value.id| ==> IsDigit(r.1.value.id[i])
  {
    var (c1, resp) := Send(c, LoginRequest(LoginUrl, c.username, c.password));
    if resp.None? then (c1, Err(Transport))
    else match resp.value.body
      case Object(p) =>
        if AuthFailed(p) then (c1, Err(AuthenticationFailed))
        else LoginAssign(c1, p)
      case _ => (c1, Err(Malformed))
  }

  /**
   * `_get(*segs)` / `_post(*segs)`: request the student URL; a body that is
   * not a JSON object raises; an expired-token reply triggers a login and
   * the same request again, with no bound on the number of rounds.
   */
  function Call(c: Client, verb: Verb, segs: seq<string>): (r: (Client, Result<Payload, ApiError>))
    decreases |c.replies|
    ensures |r.0.replies| <= |c.replies|
    ensures |r.0.sent| > |c.sent| && r.0.sent[..|c.sent|] == c.sent
    ensures r.1.Ok? ==> !Expired(r.1.value)
    ensures r.1.Ok? ==> r.0.sent[|r.0.sent| - 1] == StudentRequest(verb, SegmentsUrl(r.0.session, segs), AuthToken(r.0.session))
  {
    var (c1, resp) := Send(c, StudentRequest(verb, SegmentsUrl(c.session, segs), AuthToken(c.session)));
    if resp.None? then (c1, Err(Transport))
    else match resp.value.body
      case Object(p) =>
        if Expired(p) then
          var (c2, login) := LoginStep(c1);
          if login.Err? then (c2, Err(login.error))
          else Call(c2, verb, segs)
        else (c1, Ok(p))
      case _ => (c1, Err(Malformed))
  }

  /** An attachment reply: status 200 and a Content-Type that does not mention JSON. */
  predicate IsAttachment(resp: HttpResponse) {
    resp.status == 200 && !Contains(resp.contentType, "application/json")
  }

  /** The URL `download_didactic_content(contentId)` requests. */
  function DownloadUrl(s: Session, contentId: Option<int>): string {
    StudentUrl(s) + "/didactics/item/" + IdText(contentId)
  }

  /**
   * `download_didactic_content(contentId)`: the raw bytes of an attachment
   * reply; None for a body that is not JSON or carries no expired-token
   * error; after an expired-token reply, a login and the download again.
   */
  function Download(c: Client, contentId: Option<int>): (r: (Client, Result<Option<Bytes>, ApiError>))
    decreases |c.replies|
    ensures |r.0.replies| <= |c.replies|
    ensures r.0.replies == c.replies[|c.replies| - |r.0.replies|..]
    ensures r.1.Ok? && r.1.value.Some? ==>
      && |r.0.replies| < |c.replies|
      && var last := c.replies[|c.replies| - |r.0.replies| - 1];
      && IsAttachment(last) && last.raw == r.1.value.value
  {
    var (c1, resp) := Send(c, StudentRequest(GET, DownloadUrl(c.session, contentId), AuthToken(c.session)));
    if resp.None? then (c1, Err(Transport))
    else if IsAttachment(resp.value) then (c1, Ok(Some(resp.value.raw)))
    else match resp.value.body
      case Unparseable => (c1, Ok(None))
      case NonObject => (c1, Err(Malformed))
      case Object(p) =>
        if Expired(p) then
          var (c2, login) := LoginStep(c1);
          if login.Err? then (c2, Err(login.error))
          else
            var r2 := Download(c2, contentId);
            LoginConsumes(c1);
            SuffixOfSuffix(c.replies, c1.replies, c2.replies);
            SuffixOfSuffix(c.replies, c2.replies, r2.0.replies);
            r2
        else (c1, Ok(None))
  }

  /**
   * `r` consumed a prefix of `c`'s script (what remains is a suffix of it), and
   * a payload it holds is the body of the last reply consumed.
   */
  predicate Answered(c: Client, r: (Client, Result<Payload, ApiError>)) {
    && |r.0.replies| <= |c.replies|
    && r.0.replies == c.replies[|c.replies| - |r.0.replies|..]
    && (r.1.Ok? ==>
      && |r.0.replies| < |c.replies|
      && c.replies[|c.replies| - |r.0.replies| - 1].body == Object(r.1.value))
  }

  /** The client after the first request of `Call`, and after the login an expired-token reply triggers. */
  function CallFirst(c: Client, verb: Verb, segs: seq<string>): Client {
    Send(c, StudentRequest(verb, SegmentsUrl(c.session, segs), AuthToken(c.session))).0
  }

  predicate RetriesAfterLogin(c: Client, verb: Verb, segs: seq<string>) {
    c.replies != [] && c.replies[0].body.Object? && Expired(c.replies[0].body.payload)
    && LoginStep(CallFirst(c, verb, segs)).1.Ok?
  }

  /** Without a successful re-login, the call answers with the first reply or an error. */
  lemma CallDirect(c: Client, verb: Verb, segs: seq<string>)
    requires !RetriesAfterLogin(c, verb, segs)
    ensures Answered(c, Call(c, verb, segs))
  {
    var c1 := CallFirst(c, verb, segs);
    if c.replies != [] && c.replies[0].body.Object? && Expired(c.replies[0].body.payload) {
      LoginConsumes(c1);
      SuffixOfSuffix(c.replies, c1.replies, LoginStep(c1).0.replies);
    }
  }

  /** After an expired-token reply and a successful login, the call is the same call on a shorter script. */
  lemma CallRetry(c: Client, verb: Verb, segs: seq<string>)
    requires RetriesAfterLogin(c, verb, segs)
    ensures var c2 := LoginStep(CallFirst(c, verb, segs)).0;
      && Call(c, verb, segs) == Call(c2, verb, segs)
      && |c2.replies| < |c.replies| && c2.replies == c.replies[|c.replies| - |c2.replies|..]
  {
    var c1 := CallFirst(c, verb, segs);
    LoginConsumes(c1);
    SuffixOfSuffix(c.replies, c1.replies, LoginStep(c1).0.replies);
  }

  /**
   * A call consumes a prefix of the script (what remains is a suffix of it),
   * and a payload it returns is the body of the last reply it consumed: the
   * answer to its final request.
   */
  lemma {:induction false} CallAnswers(c: Client, verb: Verb, segs: seq<string>)
    ensures Answered(c, Call(c, verb, segs))
    decreases |c.replies|
  {
    if RetriesAfterLogin(c, verb, segs) {
      var c2 := LoginStep(CallFirst(c, verb, segs)).0;
      CallRetry(c, verb, segs);
      CallAnswers(c2, verb, segs);
      SuffixOfSuffix(c.replies, c2.replies, Call(c2, verb, segs).0.replies);
    } else {
      CallDirect(c, verb, segs);
    }
  }

  lemma SuffixOfSuffix<T>(a: seq<T>, b: seq<T>, c: seq<T>)
    requires |b| <= |a| && b == a[|a| - |b|..]
    requires |c| <= |b| && c == b[|b| - |c|..]
    ensures c == a[|a| - |c|..]
  {
  }

  /** A login consumes a prefix of the script: what remains is a suffix of it. */
  lemma LoginConsumes(c: Client)
    ensures c.replies[|c.replies| - |LoginStep(c).0.replies|..] == LoginStep(c).0.replies
  {
  }

  // ---------------------------------------------------------------------
  // Properties of the exchanges
  // ---------------------------------------------------------------------

  /**
   * A login whose `ident` is a non-digit prefix followed by the digits of
   * the student number (as "S12345") stores and returns just that number,
   * together with the reply's token and names.
   */
  lemma LoginKeepsIdentDigits(c: Client, p: Payload, prefix: string, number: string)
    requires c.replies != [] && c.replies[0].body == Object(p)
    requires p.error.None? && p.token.Some? && p.firstName.Some? && p.lastName.Some?
    requires p.ident == Some(prefix + number)
    requires forall i :: 0 <= i < |prefix| ==> !IsDigit(prefix[i])
    requires forall i :: 0 <= i < |number| ==> IsDigit(number[i])
    ensures LoginStep(c).1 == Ok(LoginInfo(number, p.firstName.value, p.lastName.value))
    ensures LoginStep(c).0.session == Session(p.token, Some(number), p.firstName, p.lastName)
  {
    assert !AuthFailed(p) by {
      assert Lower("") == "";
    }
    assert Digits(prefix + number) == number by {
      DigitsAppend(prefix, number);
      DigitsOfNonDigitString(prefix);
      DigitsOfDigitString(number);
    }
  }

  /** A reply without an expired-token error is returned as it is, after exactly one request. */
  lemma CallPassesThrough(c: Client, verb: Verb, segs: seq<string>, p: Payload)
    requires c.replies != [] && c.replies[0].body == Object(p) && !Expired(p)
    ensures Call(c, verb, segs) ==
      (c.(replies := c.replies[1..], sent := c.sent + [StudentRequest(verb, SegmentsUrl(c.session, segs), AuthToken(c.session))]), Ok(p))
  {
  }

  /** `n` copies of `block`, concatenated. */
  function Repeat<T>(block: seq<T>, n: nat): (r: seq<T>)
    ensures |r| == n * |block|
  {
    if n == 0 then [] else block + Repeat(block, n - 1)
  }

  /** A login reply that succeeds. */
  predicate GoodLogin(resp: HttpResponse) {
    && resp.body.Object?
    && var p := resp.body.payload;
    && !AuthFailed(p) && p.token.Some? && p.ident.Some? && p.firstName.Some? && p.lastName.Some?
  }

  /** A reply reporting an expired token. */
  predicate ExpiredReply(resp: HttpResponse) {
    resp.body.Object? && Expired(resp.body.payload)
  }

  /**
   * The retry has no bound: a server that answers "token expired" `n` times,
   * each time accepting the login, is asked `2n + 1` times and the final
   * answer is returned.
   */
  lemma {:induction false} RetryIsUnbounded(c: Client, verb: Verb, segs: seq<string>, expired: HttpResponse, login: HttpResponse, p: Payload, n: nat)
    requires ExpiredReply(expired) && GoodLogin(login) && !Expired(p)
    requires c.replies == Repeat([expired, login], n) + [HttpResponse(200, "application/json", [], Object(p))]
    ensures Call(c, verb, segs).1 == Ok(p)
    ensures |Call(c, verb, segs).0.sent| == |c.sent| + 2 * n + 1
    ensures Call(c, verb, segs).0.replies == []
    decreases n
  {
    if n > 0 {
      var rest := Repeat([expired, login], n - 1) + [HttpResponse(200, "application/json", [], Object(p))];
      assert c.replies == [expired, login] + rest;
      var c1 := Send(c, StudentRequest(verb, SegmentsUrl(c.session, segs), AuthToken(c.session))).0;
      assert c1.replies == [login] + rest;
      var c2 := LoginStep(c1).0;
      assert LoginStep(c1).1.Ok?;
      assert c2.replies == rest;
      RetryIsUnbounded(c2, verb, segs, expired, login, p, n - 1);
    }
  }

  /** A download reply that is an attachment yields its bytes after one request. */
  lemma DownloadAttachment(c: Client, contentId: Option<int>)
    requires c.replies != [] && IsAttachment(c.replies[0])
    ensures Download(c, contentId).1 == Ok(Some(c.replies[0].raw))
    ensures |Download(c, contentId).0.sent| == |c.sent| + 1
  {
  }

  /** A non-attachment download reply that is not JSON, or JSON without an expired token, yields None. */
  lemma DownloadUnavailable(c: Client, contentId: Option<int>)
    requires c.replies != [] && !IsAttachment(c.replies[0])
    requires c.replies[0].body.Unparseable? || (c.replies[0].body.Object? && !Expired(c.replies[0].body.payload))
    ensures Download(c, contentId).1 == Ok(None)
  {
  }

  // ---------------------------------------------------------------------
  // The client object
  // ---------------------------------------------------------------------

  class ClasseVivaApi {
    const username: string
    const password: string
    var token: Option<string>
    var studentId: Option<string>
    var firstName: Option<string>
    var lastName: Option<string>
    /** The replies the server will still give, in order. */
    var replies: seq<HttpResponse>
    /** The requests sent so far. */
    var sent: seq<Request>

    function State(): Client
      reads this
    {
      Client(username, password, Session(token, studentId, firstName, lastName), replies, sent)
    }

    constructor(username: string, password: string, server: seq<HttpResponse>)
      ensures State() == Client(username, password, Session(None, None, None, None), server, [])
    {
      this.username := username;
      this.password := password;
      token, studentId, firstName, lastName := None, None, None, None;
      replies, sent := server, [];
    }

    /** The session's request: logged and answered by the next reply, if any. */
    method Exchange(req: Request) returns (resp: Option<HttpResponse>)
      modifies this
      ensures (State(), resp) == Send(old(State()), req)
    {
      sent := sent + [req];
      if replies == [] {
        return None;
      }
      resp := Some(replies[0]);
      replies := replies[1..];
    }

    /** `login()`. */
    method Login() returns (r: Result<LoginInfo, ApiError>)
      modifies this
      ensures (State(), r) == LoginStep(old(State()))
    {
      var resp := Exchange(LoginRequest(LoginUrl, username, password));
      if resp.None? {
        return Err(Transport);
      }
      if !resp.value.body.Object? {
        return Err(Malformed);
      }
      var p := resp.value.body.payload;
      if AuthFailed(p) {
        return Err(AuthenticationFailed);
      }
      if p.token.None? {
        return Err(MissingKey);
      }
      token := p.token;
      if p.ident.None? {
        return Err(MissingKey);
      }
      studentId := Some(Digits(p.ident.value));
      if p.firstName.None? {
        return Err(MissingKey);
      }
      firstName := p.firstName;
      if p.lastName.None? {
        return Err(MissingKey);
      }
      lastName := p.lastName;
      r := Ok(LoginInfo(studentId.value, firstName.value, lastName.value));
    }

    /** `_get(*segs)` (GET) and `_post(*segs)` (POST). */
    method Issue(verb: Verb, segs: seq<string>) returns (r: Result<Payload, ApiError>)
      modifies this
      decreases |replies|
      ensures (State(), r) == Call(old(State()), verb, segs)
    {
      var url := SegmentsUrl(Session(token, studentId, firstName, lastName), segs);
      var resp := Exchange(StudentRequest(verb, url, if token.Some? && token.value != "" then token.value else ""));
      if resp.None? {
        return Err(Transport);
      }
      if !resp.value.body.Object? {
        return Err(Malformed);
      }
      var p := resp.value.body.payload;
      if Expired(p) {
        var login := Login();
        if login.Err? {
          return Err(login.error);
        }
        r := Issue(verb, segs);
      } else {
        r := Ok(p);
      }
    }

    /** `grades()`. */
    method Grades() returns (r: Result<seq<Grade>, ApiError>)
      modifies this
      ensures var (c, p) := Call(old(State()), GET, ["grades"]);
              State() == c && r == (if p.Ok? then Ok(GradesOf(p.value)) else Err(p.error))
    {
      var p := Issue(GET, ["grades"]);
      r := if p.Ok? then Ok(GradesOf(p.value)) else Err(p.error);
    }

    /** `absences()`. */
    method Absences() returns (r: Result<seq<Absence>, ApiError>)
      modifies this
      ensures var (c, p) := Call(old(State()), GET, ["absences", "details"]);
              State() == c && r == (if p.Ok? then Ok(AbsencesOf(p.value)) else Err(p.error))
    {
      var p := Issue(GET, ["absences", "details"]);
      r := if p.Ok? then Ok(AbsencesOf(p.value)) else Err(p.error);
    }

    /** `agenda(begin, end)`. */
    method Agenda(begin: Date, end: Date) returns (r: Result<seq<AgendaEvent>, ApiError>)
      modifies this
      ensures var (c, p) := Call(old(State()), GET, ["agenda", "all", FmtDate(begin), FmtDate(end)]);
              State() == c && r == (if p.Ok? then Ok(AgendaOf(p.value)) else Err(p.error))
    {
      var p := Issue(GET, ["agenda", "all", FmtDate(begin), FmtDate(end)]);
      r := if p.Ok? then Ok(AgendaOf(p.value)) else Err(p.error);
    }

    /** `didactics()`. */
    method Didactics() returns (r: Result<seq<Teacher>, ApiError>)
      modifies this
      ensures var (c, p) := Call(old(State()), GET, ["didactics"]);
              State() == c && r == (if p.Ok? then Ok(DidacticsOf(p.value)) else Err(p.error))
    {
      var p := Issue(GET, ["didactics"]);
      r := if p.Ok? then Ok(DidacticsOf(p.value)) else Err(p.error);
    }

    /** `noticeboard()`. */
    method Noticeboard() returns (r: Result<seq<Notice>, ApiError>)
      modifies this
      ensures var (c, p) := Call(old(State()), GET, ["noticeboard"]);
              State() == c && r == (if p.Ok? then Ok(NoticeboardOf(p.value)) else Err(p.error))
    {
      var p := Issue(GET, ["noticeboard"]);
      r := if p.Ok? then Ok(NoticeboardOf(p.value)) else Err(p.error);
    }

    /** `download_didactic_content(contentId)`. */
    method DownloadDidacticContent(contentId: Option<int>) returns (r: Result<Option<Bytes>, ApiError>)
      modifies this
      decreases |replies|
      ensures (State(), r) == Download(old(State()), contentId)
    {
      var url := DownloadUrl(Session(token, studentId, firstName, lastName), contentId);
      var resp := Exchange(StudentRequest(GET, url, if token.Some? && token.value != "" then token.value else ""));
      if resp.None? {
        return Err(Transport);
      }
      if IsAttachment(resp.value) {
        return Ok(Some(resp.value.raw));
      }
      match resp.value.body {
        case Unparseable =>
          return Ok(None);
        case NonObject =>
          return Err(Malformed);
        case Object(p) =>
          if !Expired(p) {
            return Ok(None);
          }
          var login := Login();
          if login.Err? {
            return Err(login.error);
          }
          r := DownloadDidacticContent(contentId);
      }
    }
  }
}
