/** The leaderboard HTTP handler: dispatch on the method, the GET read of the
    top scores and the POST write of a score and its achievements. The
    database client is a scripted backend that records every call it gets;
    the response is an object whose status, headers and body the handlers set. */
module Leaderboard {
  import opened JsValues
  import opened Sanitize

  const ClientMissingMessage := "Supabase client not initialized. Check environment variables."
  const LoadFailedMessage := "Failed to load leaderboard"
  const SaveFailedMessage := "Failed to save score"
  const InvalidScoreMessage := "Invalid \"score\". Must be a non-negative number."
  const UnexpectedMessage := "Unexpected server error"

  function NotAllowedMessage(httpMethod: string): string {
    "Method " + httpMethod + " not allowed"
  }

  /** A row as the database returns it: the inserted entry with the id and
      creation time the database assigned. */
  datatype StoredScore = StoredScore(id: int, createdAt: int, entry: ScoreEntry)

  /** What a response carries as JSON. */
  datatype Body =
    | NoBody
    | Error(error: string)
    | Scores(scores: seq<StoredScore>)
    | Created(score: Option<StoredScore>)

  datatype Reply = Reply(status: int, body: Body)

  /** The request as the handler reads it: the method, `parseInt` of the
      `limit` query value (None for NaN), and the JSON body if any. */
  datatype Request = Request(httpMethod: string, rawLimit: Option<int>, body: Option<Submission>)

  /** A call the handler makes on the database client. */
  datatype Call =
    | SelectCall(limit: int)
    | InsertCall(entry: ScoreEntry)
    | UpsertCall(rows: seq<AchievementRow>)

  /** The outcome of each kind of call: a result, an `error` in the result,
      or an exception that reaches the handler's `catch`. */
  datatype SelectOutcome = Selected(data: Option<seq<StoredScore>>) | SelectError | SelectThrows
  datatype InsertOutcome = Inserted(rows: Option<seq<StoredScore>>) | InsertError | InsertThrows
  datatype UpsertOutcome = Upserted | UpsertError | UpsertThrows

  /** The database client, with the outcome of each kind of call fixed in
      advance and a log of the calls made. */
  class Supabase {
    const selectOutcome: SelectOutcome
    const insertOutcome: InsertOutcome
    const upsertOutcome: UpsertOutcome
    var log: seq<Call>

    constructor (select: SelectOutcome, insert: InsertOutcome, upsert: UpsertOutcome)
      ensures selectOutcome == select && insertOutcome == insert && upsertOutcome == upsert
      ensures log == []
    {
      selectOutcome, insertOutcome, upsertOutcome := select, insert, upsert;
      log := [];
    }

    /** `from('leaderboard_scores').select('*').order(..).order(..).limit(limit)` */
    method Select(limit: int) returns (outcome: SelectOutcome)
      modifies this
      ensures log == old(log) + [SelectCall(limit)]
      ensures outcome == selectOutcome
    {
      log := log + [SelectCall(limit)];
      outcome := selectOutcome;
    }

    /** `from('leaderboard_scores').insert(entry).select('*').limit(1)` */
    method Insert(entry: ScoreEntry) returns (outcome: InsertOutcome)
      modifies this
      ensures log == old(log) + [InsertCall(entry)]
      ensures outcome == insertOutcome
    {
      log := log + [InsertCall(entry)];
      outcome := insertOutcome;
    }

    /** `from('player_achievements').upsert(rows, ..)` */
    method Upsert(rows: seq<AchievementRow>) returns (outcome: UpsertOutcome)
      modifies this
      ensures log == old(log) + [UpsertCall(rows)]
      ensures outcome == upsertOutcome
    {
      log := log + [UpsertCall(rows)];
      outcome := upsertOutcome;
    }
  }

  /** The HTTP response object. */
  class Response {
    var status: int
    var headers: map<string, seq<string>>
    var body: Body

    constructor ()
      ensures status == 200 && headers == map[] && body == NoBody
    {
      status, headers, body := 200, map[], NoBody;
    }

    function Sent(): Reply
      reads this
    {
      Reply(status, body)
    }

    /** `res.setHeader(name, value)` */
    method SetHeader(name: string, value: seq<string>)
      modifies this
      ensures headers == old(headers)[name := value]
      ensures status == old(status) && body == old(body)
    {
      headers := headers[name := value];
    }

    /** `res.status(code).json(payload)` */
    method Send(code: int, payload: Body)
      modifies this
      ensures status == code && body == payload
      ensures headers == old(headers)
    {
      status, body := code, payload;
    }
  }

  // ---------------------------------------------------------------------
  // What the handlers answer and which calls they make
  // ---------------------------------------------------------------------

  /** The reply to a GET, given the outcome of the select. */
  function GetReply(outcome: SelectOutcome): Reply {
    match outcome
    case SelectThrows => Reply(500, Error(UnexpectedMessage))
    case SelectError => Reply(500, Error(LoadFailedMessage))
    case Selected(data) => Reply(200, Scores(match data case None => [] case Some(rows) => rows))
  }

  /** `insertedRows && insertedRows[0] ? insertedRows[0] : null` */
  function FirstRow(rows: Option<seq<StoredScore>>): Option<StoredScore> {
    match rows
    case Some(rs) => if rs != [] then Some(rs[0]) else None
    case None => None
  }

  /** The calls a POST makes, given the outcome of the insert. */
  function PostCalls(sub: Submission, insert: InsertOutcome): seq<Call> {
    match Validate(sub)
    case None => []
    case Some(entry) =>
      [InsertCall(entry)]
      + if insert.Inserted? && entry.achievements != []
        then [UpsertCall(AchievementRows(entry.playerName, entry.achievements))]
        else []
  }

  /** The reply to a POST, given the outcomes of the insert and the upsert. */
  function PostReply(sub: Submission, insert: InsertOutcome, upsert: UpsertOutcome): Reply {
    match Validate(sub)
    case None => Reply(400, Error(InvalidScoreMessage))
    case Some(entry) =>
      match insert
      case InsertThrows => Reply(500, Error(UnexpectedMessage))
      case InsertError => Reply(500, Error(SaveFailedMessage))
      case Inserted(rows) =>
        if entry.achievements != [] && upsert == UpsertThrows
        then Reply(500, Error(UnexpectedMessage))
        else Reply(201, Created(FirstRow(rows)))
  }

  // ---------------------------------------------------------------------
  // Properties of the replies and calls
  // ---------------------------------------------------------------------

  /** A read answers 200 with the rows (an empty list when there are none)
      or 500 with a fixed message that does not carry the backend's error. */
  lemma GetReplyOutcomes(outcome: SelectOutcome)
    ensures GetReply(outcome).status == 200 <==> outcome.Selected?
    ensures GetReply(outcome).status != 200 ==> GetReply(outcome).status == 500
    ensures outcome.SelectError? ==> GetReply(outcome).body == Error(LoadFailedMessage)
    ensures outcome == Selected(None) ==> GetReply(outcome).body == Scores([])
    ensures forall rows :: outcome == Selected(Some(rows)) ==> GetReply(outcome).body == Scores(rows)
  {
  }

  /** An invalid score is answered with 400 and touches nothing. */
  lemma PostRejectsInvalidScore(sub: Submission, insert: InsertOutcome, upsert: UpsertOutcome)
    requires ScoreRejected(sub.score)
    ensures PostReply(sub, insert, upsert) == Reply(400, Error(InvalidScoreMessage))
    ensures PostCalls(sub, insert) == []
  {
  }

  /** A valid submission always inserts exactly one row, the sanitized one,
      as its first call, and that row satisfies the entry invariant. */
  lemma PostInsertsOneValidEntry(sub: Submission, insert: InsertOutcome)
    requires ScoreAccepted(sub.score)
    ensures |PostCalls(sub, insert)| >= 1
    ensures PostCalls(sub, insert)[0] == InsertCall(Validate(sub).value)
    ensures ValidEntry(Validate(sub).value)
    ensures forall k :: 1 <= k < |PostCalls(sub, insert)| ==> !PostCalls(sub, insert)[k].InsertCall?
  {
  }

  /** A submission without a player name inserts a row named "Guest". */
  lemma PostOmittedNameIsGuest(sub: Submission, insert: InsertOutcome)
    requires ScoreAccepted(sub.score) && sub.playerName.None?
    ensures PostCalls(sub, insert)[0].InsertCall?
    ensures PostCalls(sub, insert)[0].entry.playerName == GuestName
  {
  }

  /** A failed insert is fatal: 500, and no upsert is attempted. */
  lemma PostInsertFailureIsFatal(sub: Submission, insert: InsertOutcome, upsert: UpsertOutcome)
    requires ScoreAccepted(sub.score) && !insert.Inserted?
    ensures PostReply(sub, insert, upsert).status == 500
    ensures PostCalls(sub, insert) == [InsertCall(Validate(sub).value)]
    ensures insert.InsertError? ==> PostReply(sub, insert, upsert).body == Error(SaveFailedMessage)
  {
  }

  /** After a successful insert the upsert is attempted exactly when the
      cleaned achievements are non-empty, with one row per id, in order,
      each pairing the sanitized name with the id. */
  lemma PostUpsertRows(sub: Submission, rows: Option<seq<StoredScore>>)
    requires ScoreAccepted(sub.score)
    ensures var calls := PostCalls(sub, Inserted(rows));
            (|calls| == 2 <==> CleanAchievements(sub.achievements) != [])
            && |calls| <= 2
    ensures var calls := PostCalls(sub, Inserted(rows));
            var ids := CleanAchievements(sub.achievements);
            |calls| == 2 ==>
              calls[1].UpsertCall? && |calls[1].rows| == |ids|
              && forall k :: 0 <= k < |ids| ==>
                   calls[1].rows[k] == AchievementRow(SanitizeName(sub.playerName), ids[k])
  {
  }

  /** An upsert that reports an error does not change the reply: 201 with
      the inserted row, as if the upsert had succeeded. */
  lemma PostUpsertErrorIsNotFatal(sub: Submission, rows: Option<seq<StoredScore>>)
    requires ScoreAccepted(sub.score)
    ensures PostReply(sub, Inserted(rows), UpsertError) == PostReply(sub, Inserted(rows), Upserted)
    ensures PostReply(sub, Inserted(rows), UpsertError) == Reply(201, Created(FirstRow(rows)))
  {
  }

  /** An upsert that throws after a successful insert reaches the `catch`:
      the reply is 500 although the score row was already inserted. */
  lemma PostUpsertThrowIsFatalAfterInsert(sub: Submission, rows: Option<seq<StoredScore>>)
    requires ScoreAccepted(sub.score) && CleanAchievements(sub.achievements) != []
    ensures PostReply(sub, Inserted(rows), UpsertThrows) == Reply(500, Error(UnexpectedMessage))
    ensures |PostCalls(sub, Inserted(rows))| == 2
    ensures PostCalls(sub, Inserted(rows))[0] == InsertCall(Validate(sub).value)
  {
  }

  // ---------------------------------------------------------------------
  // The handlers
  // ---------------------------------------------------------------------

  /** `handleGetLeaderboard` */
  method HandleGetLeaderboard(req: Request, res: Response, db: Supabase)
    modifies res, db
    ensures db.log == old(db.log) + [SelectCall(EffectiveLimit(req.rawLimit))]
    ensures res.Sent() == GetReply(db.selectOutcome)
    ensures res.headers == old(res.headers)
  {
    var limit := NormalizeLimit(req.rawLimit);
    var outcome := db.Select(limit);
    match outcome
    case SelectThrows =>
      res.Send(500, Error(UnexpectedMessage));
    case SelectError =>
      res.Send(500, Error(LoadFailedMessage));
    case Selected(data) =>
      res.Send(200, Scores(if data.Some? then data.value else []));
  }

  /** `handlePostScore` */
  method HandlePostScore(req: Request, res: Response, db: Supabase)
    modifies res, db
    ensures db.log == old(db.log) + PostCalls(BodyFields(req.body), db.insertOutcome)
    ensures res.Sent() == PostReply(BodyFields(req.body), db.insertOutcome, db.upsertOutcome)
    ensures res.headers == old(res.headers)
  {
    var sub := BodyFields(req.body);
    var name := SanitizeName(sub.playerName);
    if ScoreRejected(sub.score) {
      res.Send(400, Error(InvalidScoreMessage));
      return;
    }
    var safeStage := SafeStage(sub.stage);
    var safeTotalCorrect := SafeTotalCorrect(sub.totalCorrect);
    var safeAchievements := CleanAchievements(sub.achievements);

    // 1) the score row
    var inserted := db.Insert(ScoreEntry(name, sub.score, safeStage, safeTotalCorrect, safeAchievements));
    if inserted.InsertThrows? {
      res.Send(500, Error(UnexpectedMessage));
      return;
    }
    if inserted.InsertError? {
      res.Send(500, Error(SaveFailedMessage));
      return;
    }
    var insertedScore := FirstRow(inserted.rows);

    // 2) the achievements, best effort
    if |safeAchievements| > 0 {
      var achievementRows := AchievementRows(name, safeAchievements);
      var upserted := db.Upsert(achievementRows);
      if upserted.UpsertThrows? {
        res.Send(500, Error(UnexpectedMessage));
        return;
      }
      // an UpsertError is only logged
    }
    res.Send(201, Created(insertedScore));
  }

  /** `handler`: no client gives 500 before anything else; GET and POST go to
      their handlers; any other method gets 405 with `Allow: GET, POST`. */
  method Handler(req: Request, res: Response, db: Supabase?)
    modifies res, db
    ensures db == null ==>
              res.Sent() == Reply(500, Error(ClientMissingMessage)) && res.headers == old(res.headers)
    ensures db != null && req.httpMethod == "GET" ==>
              && db.log == old(db.log) + [SelectCall(EffectiveLimit(req.rawLimit))]
              && res.Sent() == GetReply(db.selectOutcome)
              && res.headers == old(res.headers)
    ensures db != null && req.httpMethod == "POST" ==>
              && db.log == old(db.log) + PostCalls(BodyFields(req.body), db.insertOutcome)
              && res.Sent() == PostReply(BodyFields(req.body), db.insertOutcome, db.upsertOutcome)
              && res.headers == old(res.headers)
    ensures db != null && req.httpMethod != "GET" && req.httpMethod != "POST" ==>
              && db.log == old(db.log)
              && res.Sent() == Reply(405, Error(NotAllowedMessage(req.httpMethod)))
              && res.headers == old(res.headers)["Allow" := ["GET", "POST"]]
  {
    if db == null {
      res.Send(500, Error(ClientMissingMessage));
      return;
    }
    if req.httpMethod == "GET" {
      HandleGetLeaderboard(req, res, db);
      return;
    }
    if req.httpMethod == "POST" {
      HandlePostScore(req, res, db);
      return;
    }
    res.SetHeader("Allow", ["GET", "POST"]);
    res.Send(405, Error(NotAllowedMessage(req.httpMethod)));
  }
}
