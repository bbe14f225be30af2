/** The validation and sanitization rules of the leaderboard handler: the
    `limit` of a read, and the fields of a score submission. */
module Sanitize {
  import opened JsValues

  const DefaultLimit: int := 10
  const MaxLimit: int := 50
  const MaxNameLength: nat := 30
  const GuestName: string := "Guest"

  // ---------------------------------------------------------------------
  // limit (GET)
  // ---------------------------------------------------------------------

  /** The number of rows a read asks for, given `parseInt(limit, 10)` (None
      when that is NaN). */
  function EffectiveLimit(parsed: Option<int>): (limit: int)
    ensures 1 <= limit <= MaxLimit
    ensures limit == DefaultLimit <==> parsed.None? || parsed.value <= 0 || parsed.value == DefaultLimit
    ensures limit == MaxLimit <==> parsed.Some? && parsed.value >= MaxLimit
    ensures parsed.Some? && 0 < parsed.value <= MaxLimit ==> limit == parsed.value
  {
    match parsed
    case None => DefaultLimit
    case Some(n) => if n <= 0 then DefaultLimit else if n < MaxLimit then n else MaxLimit
  }

  /** The handler's own computation of the limit: start from the parsed value,
      replace NaN or a non-positive value by 10, then cap it at 50. */
  method NormalizeLimit(parsed: Option<int>) returns (limit: int)
    ensures 1 <= limit <= MaxLimit
    ensures parsed.None? || parsed.value <= 0 ==> limit == DefaultLimit
    ensures parsed.Some? && parsed.value > MaxLimit ==> limit == MaxLimit
    ensures parsed.Some? && 0 < parsed.value <= MaxLimit ==> limit == parsed.value
    ensures limit == EffectiveLimit(parsed)
  {
    var isNaN := parsed.None?;
    limit := if isNaN then 0 else parsed.value;
    if isNaN || limit <= 0 {
      limit := DefaultLimit;
    }
    if limit > MaxLimit {
      limit := MaxLimit;
    }
  }

  // ---------------------------------------------------------------------
  // playerName
  // ---------------------------------------------------------------------

  /** `String(playerName || 'Guest').trim().slice(0, 30) || 'Guest'`.
      None stands for an absent or falsy non-string playerName. */
  function SanitizeName(playerName: Option<string>): (name: string)
    ensures 1 <= |name| <= MaxNameLength
    ensures !IsWhitespace(name[0])
    ensures playerName.None? || AllWhitespace(playerName.value) ==> name == GuestName
    ensures playerName.Some? && !AllWhitespace(playerName.value) ==>
              name <= Trim(playerName.value) && |name| == Min(|Trim(playerName.value)|, MaxNameLength)
  {
    var text := match playerName
                case None => GuestName
                case Some(p) => if p == "" then GuestName else p;
    var cut := Slice(Trim(text), MaxNameLength);
    TrimProperties(text);
    assert text == GuestName ==> Trim(text) != "" by {
      assert !IsWhitespace(GuestName[0]);
    }
    if cut == "" then GuestName else cut
  }

  function Min(a: int, b: int): int {
    if a < b then a else b
  }

  /** A name that is already trimmed, non-empty and at most 30 characters
      long is stored as it was sent. */
  lemma SanitizeNameKeepsCleanName(s: string)
    requires Trimmed(s) && 1 <= |s| <= MaxNameLength
    ensures SanitizeName(Some(s)) == s
  {
    TrimOfTrimmed(s);
  }

  /** Because the name is trimmed before it is cut, a cut that ends inside the
      name can leave whitespace at its end; sending the stored name again then
      gives a different name, so the sanitization is not idempotent. */
  lemma SanitizedNameMayEndInWhitespace()
    ensures var sent := "abcdefghijklmnopqrstuvwxyzabc d";
            var stored := SanitizeName(Some(sent));
            stored[|stored| - 1] == ' ' && SanitizeName(Some(stored)) != stored
  {
    var sent := "abcdefghijklmnopqrstuvwxyzabc d";
    var letters := "abcdefghijklmnopqrstuvwxyzabc";
    assert Trimmed(sent);
    TrimOfTrimmed(sent);
    assert AllWhitespace([' ']);
    assert !AllWhitespace(sent) by { assert !IsWhitespace(sent[0]); }
    var stored := SanitizeName(Some(sent));
    assert stored == sent[..30];
    assert stored == letters + [' '];
    TrimFrame([], letters, [' ']);
    assert [] + letters + [' '] == stored;
    assert !AllWhitespace(stored) by { assert !IsWhitespace(stored[0]); }
    assert |SanitizeName(Some(stored))| == 29;
  }

  // ---------------------------------------------------------------------
  // score, stage, totalCorrect
  // ---------------------------------------------------------------------

  /** The 400 guard: `typeof score !== 'number' || Number.isNaN(score) || score < 0`. */
  predicate ScoreRejected(score: Value) {
    score.NonNumber? || score.NaN? || LessThanZero(score)
  }

  predicate ScoreAccepted(score: Value) {
    !ScoreRejected(score)
  }

  /** A score passes exactly when it is a non-negative finite number or
      +Infinity: the guard has no finiteness check. */
  lemma ScoreAcceptedExactly(score: Value)
    ensures ScoreAccepted(score) <==> score == Infinity(false) || (score.Finite? && score.x >= 0.0)
  {
  }

  /** `Number.isInteger(stage) && stage > 0 ? stage : 1` */
  function SafeStage(stage: Value): (r: int)
    ensures r >= 1
    ensures IsInteger(stage) && stage.x > 0.0 ==> r as real == stage.x
    ensures !(IsInteger(stage) && stage.x > 0.0) ==> r == 1
  {
    if IsInteger(stage) && stage.x > 0.0 then stage.x.Floor else 1
  }

  /** `Number.isInteger(totalCorrect) && totalCorrect >= 0 ? totalCorrect : 0` */
  function SafeTotalCorrect(totalCorrect: Value): (r: int)
    ensures r >= 0
    ensures IsInteger(totalCorrect) && totalCorrect.x >= 0.0 ==> r as real == totalCorrect.x
    ensures !(IsInteger(totalCorrect) && totalCorrect.x >= 0.0) ==> r == 0
  {
    if IsInteger(totalCorrect) && totalCorrect.x >= 0.0 then totalCorrect.x.Floor else 0
  }

  // ---------------------------------------------------------------------
  // achievements
  // ---------------------------------------------------------------------

  /** The `achievements` field: an array (its elements already passed through
      `String`) or anything else. */
  datatype Achievements = NotArray | Array(items: seq<string>)

  /** `.map((a) => String(a).trim())` */
  function TrimEach(items: seq<string>): (r: seq<string>)
    ensures |r| == |items|
    ensures forall k :: 0 <= k < |r| ==> r[k] == Trim(items[k]) && Trimmed(r[k])
  {
    assert forall k :: 0 <= k < |items| ==> Trimmed(Trim(items[k])) by {
      forall k | 0 <= k < |items| ensures Trimmed(Trim(items[k])) {
        TrimProperties(items[k]);
      }
    }
    seq(|items|, k requires 0 <= k < |items| => Trim(items[k]))
  }

  /** `.filter((a) => a.length > 0)` */
  function DropEmpty(xs: seq<string>): (r: seq<string>)
    ensures |r| <= |xs|
    ensures forall k :: 0 <= k < |r| ==> r[k] != ""
    ensures forall t :: t in r <==> t in xs && t != ""
  {
    if xs == [] then []
    else (if xs[0] == "" then [] else [xs[0]]) + DropEmpty(xs[1..])
  }

  /** The filter keeps order: it distributes over concatenation. */
  lemma {:induction false} DropEmptyAppend(xs: seq<string>, ys: seq<string>)
    ensures DropEmpty(xs + ys) == DropEmpty(xs) + DropEmpty(ys)
  {
    if xs == [] {
      assert xs + ys == ys;
    } else {
      assert (xs + ys)[1..] == xs[1..] + ys;
      DropEmptyAppend(xs[1..], ys);
    }
  }

  /** `Array.isArray(achievements) ? achievements.map(..).filter(..) : []` */
  function CleanAchievements(achievements: Achievements): (r: seq<string>)
    ensures achievements.NotArray? ==> r == []
    ensures achievements.Array? ==> |r| <= |achievements.items|
  {
    match achievements
    case NotArray => []
    case Array(items) => DropEmpty(TrimEach(items))
  }

  /** Every cleaned id is non-empty and trimmed, and a string is an id of the
      result exactly when it is the non-empty trim of some element. */
  lemma CleanAchievementsProperties(achievements: Achievements)
    ensures forall k :: 0 <= k < |CleanAchievements(achievements)| ==>
              CleanAchievements(achievements)[k] != "" && Trimmed(CleanAchievements(achievements)[k])
    ensures achievements.Array? ==>
              forall t :: t in CleanAchievements(achievements) <==>
                t != "" && exists k :: 0 <= k < |achievements.items| && Trim(achievements.items[k]) == t
  {
    if achievements.Array? {
      var items := achievements.items;
      var r := CleanAchievements(achievements);
      forall k | 0 <= k < |r| ensures Trimmed(r[k]) {
        assert r[k] in TrimEach(items);
        var m :| 0 <= m < |items| && TrimEach(items)[m] == r[k];
        TrimProperties(items[m]);
      }
      forall t ensures t in r <==> t != "" && exists k :: 0 <= k < |items| && Trim(items[k]) == t {
        if t in TrimEach(items) {
          var m :| 0 <= m < |items| && TrimEach(items)[m] == t;
          assert Trim(items[m]) == t;
        }
        if exists k :: 0 <= k < |items| && Trim(items[k]) == t {
          var m :| 0 <= m < |items| && Trim(items[m]) == t;
          assert TrimEach(items)[m] == t;
        }
      }
    }
  }

  /** Cleaning keeps the order of the ids: it distributes over concatenation. */
  lemma CleanAchievementsAppend(xs: seq<string>, ys: seq<string>)
    ensures CleanAchievements(Array(xs + ys)) == CleanAchievements(Array(xs)) + CleanAchievements(Array(ys))
  {
    assert TrimEach(xs + ys) == TrimEach(xs) + TrimEach(ys);
    DropEmptyAppend(TrimEach(xs), TrimEach(ys));
  }

  /** One element is kept, trimmed, unless it trims to nothing. */
  lemma CleanAchievementsSingle(x: string)
    ensures CleanAchievements(Array([x])) == if Trim(x) == "" then [] else [Trim(x)]
  {
    assert TrimEach([x]) == [Trim(x)];
    assert [Trim(x)][1..] == [];
  }

  /** Duplicates are kept: n copies of an id give n copies of its trim. */
  lemma {:induction false} CleanAchievementsKeepsDuplicates(x: string, n: nat)
    requires Trim(x) != ""
    ensures CleanAchievements(Array(seq(n, _ => x))) == seq(n, _ => Trim(x))
  {
    if n > 0 {
      CleanAchievementsKeepsDuplicates(x, n - 1);
      assert seq(n, _ => x) == seq(n - 1, _ => x) + [x];
      assert seq(n, _ => Trim(x)) == seq(n - 1, _ => Trim(x)) + [Trim(x)];
      CleanAchievementsAppend(seq(n - 1, _ => x), [x]);
      CleanAchievementsSingle(x);
    } else {
      assert seq(n, _ => x) == [];
    }
  }

  // ---------------------------------------------------------------------
  // The sanitized submission
  // ---------------------------------------------------------------------

  /** The fields of a POST body; `req.body || {}` makes a missing body the
      submission with every field absent. */
  datatype Submission = Submission(
    playerName: Option<string>,
    score: Value,
    stage: Value,
    totalCorrect: Value,
    achievements: Achievements)

  const EmptySubmission := Submission(None, NonNumber, NonNumber, NonNumber, NotArray)

  function BodyFields(body: Option<Submission>): Submission {
    match body
    case None => EmptySubmission
    case Some(fields) => fields
  }

  /** The row inserted into `leaderboard_scores`. */
  datatype ScoreEntry = ScoreEntry(
    playerName: string,
    score: Value,
    stage: int,
    totalCorrect: int,
    achievements: seq<string>)

  /** The invariant every inserted row satisfies. */
  predicate ValidEntry(e: ScoreEntry) {
    && 1 <= |e.playerName| <= MaxNameLength
    && !IsWhitespace(e.playerName[0])
    && ScoreAccepted(e.score)
    && e.stage >= 1
    && e.totalCorrect >= 0
    && forall k :: 0 <= k < |e.achievements| ==> e.achievements[k] != "" && Trimmed(e.achievements[k])
  }

  /** The row a submission leads to, or None when its score is rejected. */
  function Validate(sub: Submission): (r: Option<ScoreEntry>)
    ensures r.Some? <==> ScoreAccepted(sub.score)
    ensures r.Some? ==> ValidEntry(r.value) && r.value.score == sub.score
    ensures r.Some? ==> r.value.playerName == SanitizeName(sub.playerName)
    ensures r.Some? ==> r.value.stage == SafeStage(sub.stage)
    ensures r.Some? ==> r.value.totalCorrect == SafeTotalCorrect(sub.totalCorrect)
    ensures r.Some? ==> r.value.achievements == CleanAchievements(sub.achievements)
  {
    if ScoreRejected(sub.score) then None
    else
      CleanAchievementsProperties(sub.achievements);
      Some(ScoreEntry(
        SanitizeName(sub.playerName),
        sub.score,
        SafeStage(sub.stage),
        SafeTotalCorrect(sub.totalCorrect),
        CleanAchievements(sub.achievements)))
  }

  /** One `player_achievements` row. */
  datatype AchievementRow = AchievementRow(playerName: string, achievementId: string)

  /** `safeAchievements.map((id) => ({ player_name: name, achievement_id: id }))` */
  function AchievementRows(name: string, ids: seq<string>): (rows: seq<AchievementRow>)
    ensures |rows| == |ids|
    ensures forall k :: 0 <= k < |rows| ==> rows[k] == AchievementRow(name, ids[k])
  {
    if ids == [] then []
    else [AchievementRow(name, ids[0])] + AchievementRows(name, ids[1..])
  }
}
