/**
 * The checks and transforms the bot applies between fetching the review API's
 * answer and sending a chat message: the status table, the response-shape check,
 * the notification built from one submission record, and the start-up token check.
 */
module Homework {
  import opened JsonValue

  datatype Option<T> = None | Some(value: T)

  /** Why a step raised. Each case is one `raise` of the source (or one abstracted failure). */
  datatype Error =
    | ApiUnavailable           // the request, the status-code check or JSON decoding raised
    | ResponseNotDict          // the decoded answer is not a dict
    | HomeworksMissing         // the answer has no `homeworks` key
    | HomeworksNotList         // `homeworks` is not a list
    | RecordNotDict            // a submission record has no `.get` (it is not a dict)
    | NameMissing              // the record has no `homework_name`
    | StatusMissing            // the record has no `status`
    | StatusUnhashable         // `status` is a list or dict, so the table lookup cannot hash it
    | UnknownStatus(status: Json)  // `status` is not one of the table's keys
    | SendFailed               // sending raised, and matching the `except` clause then raised TypeError

  /**
   * The Python exception class each error is raised as. `Unmodelled` stands for
   * the several classes a failed fetch can raise.
   */
  datatype PyException = TypeError | ValueError | KeyError | AttributeError | Unmodelled

  function Raised(e: Error): (x: PyException)
    ensures x == TypeError <==> e in {ResponseNotDict, HomeworksNotList, StatusUnhashable, SendFailed}
    ensures x == ValueError <==> e == HomeworksMissing || e.UnknownStatus?
    ensures x == KeyError <==> e in {NameMissing, StatusMissing}
    ensures x == AttributeError <==> e == RecordNotDict
  {
    match e
    case ApiUnavailable => Unmodelled
    case ResponseNotDict => TypeError
    case HomeworksMissing => ValueError
    case HomeworksNotList => TypeError
    case RecordNotDict => AttributeError
    case NameMissing => KeyError
    case StatusMissing => KeyError
    case StatusUnhashable => TypeError
    case UnknownStatus(_) => ValueError
    case SendFailed => TypeError
  }

  datatype Result<T> = Ok(value: T) | Err(error: Error) {
    predicate IsFailure() { Err? }
    function PropagateFailure<U>(): Result<U> requires Err? { Err(error) }
    function Extract(): T requires Ok? { value }
  }

  /** The status codes the bot knows, and the verdict text sent for each. */
  const HomeworkStatuses: map<string, string> := map[
    "approved" := "Работа проверена: ревьюеру всё понравилось. Ура!",
    "reviewing" := "Работа взята на проверку ревьюером.",
    "rejected" := "Работа проверена: у ревьюера есть замечания."
  ]

  /** The table is total over exactly its three codes, and no verdict is empty. */
  lemma StatusCatalogTotal()
    ensures HomeworkStatuses.Keys == {"approved", "reviewing", "rejected"}
    ensures forall code :: code in HomeworkStatuses ==> |HomeworkStatuses[code]| > 0
  {
  }

  // ---------------------------------------------------------------- check_response

  /**
   * Checks the shape of the decoded answer and returns its list of submissions.
   * The source's key guard is `'current_date' and 'homeworks' not in keys`, whose
   * first operand is a non-empty string and so always true: only `homeworks` is
   * required, and `current_date` is never looked at.
   */
  function CheckResponse(response: Json): (r: Result<seq<Json>>)
    ensures r == Err(ResponseNotDict) <==> !response.JObject?
    ensures r == Err(HomeworksMissing) <==> response.JObject? && "homeworks" !in response.fields
    ensures r == Err(HomeworksNotList) <==>
      response.JObject? && "homeworks" in response.fields && !response.fields["homeworks"].JArray?
    ensures r.Err? ==> r.error in {ResponseNotDict, HomeworksMissing, HomeworksNotList}
    ensures r.Ok? ==>
      response.JObject? && "homeworks" in response.fields && r.value == response.fields["homeworks"].items
  {
    if !response.JObject? then
      Err(ResponseNotDict)
    else if "homeworks" !in response.fields then
      Err(HomeworksMissing)
    else if !response.fields["homeworks"].JArray? then
      Err(HomeworksNotList)
    else
      Ok(response.fields["homeworks"].items)
  }

  /** An answer of the shape the bot expects: a date and a list of submissions. */
  function ApiResponse(currentDate: int, homeworks: seq<Json>): Json {
    JObject(map["current_date" := JNumber(currentDate), "homeworks" := JArray(homeworks)])
  }

  /** Any well-formed answer passes, and the submissions come back unchanged, the empty list included. */
  lemma CheckResponseRoundTrip(currentDate: int, homeworks: seq<Json>)
    ensures CheckResponse(ApiResponse(currentDate, homeworks)) == Ok(homeworks)
  {
  }

  /** Adding, changing or removing `current_date` never changes the outcome. */
  lemma CurrentDateIgnored(fields: map<string, Json>, date: Json)
    ensures CheckResponse(JObject(fields["current_date" := date]))
         == CheckResponse(JObject(fields - {"current_date"}))
         == CheckResponse(JObject(fields))
  {
  }

  /** The type errors are exactly a non-dict answer and a non-list `homeworks`. */
  lemma CheckResponseTypeErrors(response: Json)
    ensures var r := CheckResponse(response);
      r.Err? && Raised(r.error) == TypeError <==>
        !response.JObject? || ("homeworks" in response.fields && !response.fields["homeworks"].JArray?)
  {
  }

  // ---------------------------------------------------------------- parse_status

  const NotificationPrefix: string := "Изменился статус проверки работы \""
  const VerdictSeparator: string := "\". "

  /** The chat text for a submission called `name` that received `verdict`. */
  function Notification(name: string, verdict: string): (r: string)
    ensures |r| == |NotificationPrefix| + |name| + |VerdictSeparator| + |verdict|
    ensures r[..|NotificationPrefix|] == NotificationPrefix
    ensures r[|NotificationPrefix|..|NotificationPrefix| + |name|] == name
    ensures r[|NotificationPrefix| + |name|..|r| - |verdict|] == VerdictSeparator
    ensures r[|r| - |verdict|..] == verdict
  {
    NotificationPrefix + name + VerdictSeparator + verdict
  }

  /** True when `status` is one of the table's codes. */
  predicate KnownStatus(status: Json) {
    status.JString? && status.s in HomeworkStatuses
  }

  /**
   * Validates one submission record and builds its notification. The checks run
   * in the source's order: the record must be a dict (`.get` comes first), then
   * `homework_name` must be present, then `status`, then the status must be a key
   * of the table (a list or dict there cannot even be hashed).
   */
  function ParseStatus(homework: Json): (r: Result<string>)
    ensures r == Err(RecordNotDict) <==> !homework.JObject?
    ensures r == Err(NameMissing) <==> homework.JObject? && "homework_name" !in homework.fields
    ensures r == Err(StatusMissing) <==>
      homework.JObject? && "homework_name" in homework.fields && "status" !in homework.fields
    ensures r.Err? && Raised(r.error) == ValueError <==>
      homework.JObject? && "homework_name" in homework.fields && "status" in homework.fields
      && Hashable(homework.fields["status"]) && !KnownStatus(homework.fields["status"])
    ensures r == Err(StatusUnhashable) <==>
      homework.JObject? && "homework_name" in homework.fields && "status" in homework.fields
      && !Hashable(homework.fields["status"])
    ensures r.Err? && Raised(r.error) == ValueError ==> r == Err(UnknownStatus(homework.fields["status"]))
    ensures r.Ok? <==>
      homework.JObject? && "homework_name" in homework.fields && "status" in homework.fields
      && KnownStatus(homework.fields["status"])
    ensures r.Ok? ==>
      r.value == Notification(Render(homework.fields["homework_name"]),
                              HomeworkStatuses[homework.fields["status"].s])
  {
    if !homework.JObject? then
      Err(RecordNotDict)
    else if "homework_name" !in homework.fields then
      Err(NameMissing)
    else if "status" !in homework.fields then
      Err(StatusMissing)
    else
      var status := homework.fields["status"];
      if !Hashable(status) then
        Err(StatusUnhashable)
      else if !KnownStatus(status) then
        Err(UnknownStatus(status))
      else
        Ok(Notification(Render(homework.fields["homework_name"]), HomeworkStatuses[status.s]))
  }

  // ---------------------------------------------------------------- reading a notification back

  predicate EndsWith(s: string, suffix: string) {
    |suffix| <= |s| && s[|s| - |suffix|..] == suffix
  }

  /** The status codes in the table's order. */
  const StatusCodes: seq<string> := ["approved", "reviewing", "rejected"]

  /** Finds which verdict `rest` ends with and returns the name in front of it. */
  function MatchVerdict(rest: string, codes: seq<string>): (r: Option<(string, string)>)
    requires forall i :: 0 <= i < |codes| ==> codes[i] in HomeworkStatuses
    ensures r.Some? ==>
      r.value.1 in codes && rest == r.value.0 + VerdictSeparator + HomeworkStatuses[r.value.1]
  {
    if codes == [] then None
    else
      var tail := VerdictSeparator + HomeworkStatuses[codes[0]];
      if EndsWith(rest, tail) then
        assert rest == rest[..|rest| - |tail|] + tail;
        Some((rest[..|rest| - |tail|], codes[0]))
      else
        MatchVerdict(rest, codes[1..])
  }

  /** Recovers the submission name and status code from a notification, if it is one. */
  function DecodeNotification(message: string): (r: Option<(string, string)>)
    ensures r.Some? ==>
      r.value.1 in HomeworkStatuses && message == Notification(r.value.0, HomeworkStatuses[r.value.1])
  {
    var p := |NotificationPrefix|;
    if p <= |message| && message[..p] == NotificationPrefix then
      var r := MatchVerdict(message[p..], StatusCodes);
      if r.Some? then
        assert message == message[..p] + message[p..];
        r
      else None
    else None
  }

  /** The last two characters of each verdict, which tell the three apart. */
  lemma VerdictEndings()
    ensures var v := HomeworkStatuses["approved"]; |v| >= 2 && v[|v| - 2..] == "а!"
    ensures var v := HomeworkStatuses["reviewing"]; |v| >= 2 && v[|v| - 2..] == "м."
    ensures var v := HomeworkStatuses["rejected"]; |v| >= 2 && v[|v| - 2..] == "я."
  {
  }

  /** A string ending in `suffix` ends in the same last two characters as `suffix`. */
  lemma EndsWithLastTwo(s: string, suffix: string)
    requires EndsWith(s, suffix) && |suffix| >= 2
    ensures s[|s| - 2..] == suffix[|suffix| - 2..]
  {
  }

  /** The text a notification ends with never ends in another status's verdict. */
  lemma OtherVerdictDoesNotMatch(name: string, code: string, other: string)
    requires code in HomeworkStatuses && other in HomeworkStatuses && other != code
    ensures !EndsWith(name + VerdictSeparator + HomeworkStatuses[code],
                      VerdictSeparator + HomeworkStatuses[other])
  {
    var rest := name + VerdictSeparator + HomeworkStatuses[code];
    var tail := VerdictSeparator + HomeworkStatuses[other];
    VerdictEndings();
    if EndsWith(rest, tail) {
      EndsWithLastTwo(rest, tail);
      EndsWithLastTwo(rest, HomeworkStatuses[code]);
      EndsWithLastTwo(tail, HomeworkStatuses[other]);
      assert false;
    }
  }

  /** Scanning the codes stops at the one whose verdict the text ends with, and splits off the name. */
  lemma {:induction false} MatchVerdictFinds(name: string, code: string, codes: seq<string>)
    requires forall i :: 0 <= i < |codes| ==> codes[i] in HomeworkStatuses
    requires code in codes
    ensures MatchVerdict(name + VerdictSeparator + HomeworkStatuses[code], codes) == Some((name, code))
  {
    var rest := name + VerdictSeparator + HomeworkStatuses[code];
    var tail := VerdictSeparator + HomeworkStatuses[codes[0]];
    if codes[0] == code {
      assert rest == name + tail;
      assert rest[|rest| - |tail|..] == tail;
      assert rest[..|rest| - |tail|] == name;
    } else {
      OtherVerdictDoesNotMatch(name, code, codes[0]);
      MatchVerdictFinds(name, code, codes[1..]);
    }
  }

  /** A notification for a string name reads back as that name and status. */
  lemma NotificationRoundTrip(name: string, code: string)
    requires code in HomeworkStatuses
    ensures DecodeNotification(Notification(name, HomeworkStatuses[code])) == Some((name, code))
  {
    var message := Notification(name, HomeworkStatuses[code]);
    var p := |NotificationPrefix|;
    assert message[p..] == name + VerdictSeparator + HomeworkStatuses[code];
    MatchVerdictFinds(name, code, StatusCodes);
  }

  /** A successful parse of a record with a string name can be read back as its name and status. */
  lemma ParseStatusRoundTrip(homework: Json)
    requires ParseStatus(homework).Ok?
    requires homework.fields["homework_name"].JString?
    ensures DecodeNotification(ParseStatus(homework).value)
         == Some((homework.fields["homework_name"].s, homework.fields["status"].s))
  {
    NotificationRoundTrip(homework.fields["homework_name"].s, homework.fields["status"].s);
  }

  // ---------------------------------------------------------------- check_tokens

  /**
   * The start-up token check as written: its loop over the three variables returns
   * on the first pass, so the answer depends on `PRACTICUM_TOKEN` alone.
   */
  function CheckTokens(practicumToken: Option<string>, telegramToken: Option<string>,
                       telegramChatId: Option<string>): (ok: bool)
    ensures !ok <==> practicumToken.None?
  {
    var envVars := [practicumToken, telegramToken, telegramChatId];
    envVars[0].Some?
  }

  /** The two later variables never change the answer. */
  lemma CheckTokensIgnoresLaterTokens(practicumToken: Option<string>,
                                      telegramToken: Option<string>, telegramChatId: Option<string>,
                                      telegramToken': Option<string>, telegramChatId': Option<string>)
    ensures CheckTokens(practicumToken, telegramToken, telegramChatId)
         == CheckTokens(practicumToken, telegramToken', telegramChatId')
  {
  }

  /** The configuration variables by name, in the order the source lists them. */
  function TokenEnvironment(practicumToken: Option<string>, telegramToken: Option<string>,
                            telegramChatId: Option<string>): seq<(string, Option<string>)>
  {
    [("PRACTICUM_TOKEN", practicumToken), ("TELEGRAM_TOKEN", telegramToken),
     ("TELEGRAM_CHAT_ID", telegramChatId)]
  }

  /** The names of every unset variable, in order: the corrected check scans them all. */
  function MissingTokens(env: seq<(string, Option<string>)>): (missing: seq<string>)
    ensures |missing| <= |env|
    ensures missing == [] <==> forall i :: 0 <= i < |env| ==> env[i].1.Some?
    ensures forall i :: 0 <= i < |env| && env[i].1.None? ==> env[i].0 in missing
    ensures forall n :: n in missing ==> exists i :: 0 <= i < |env| && env[i].0 == n && env[i].1.None?
  {
    if env == [] then []
    else
      var rest := MissingTokens(env[1..]);
      if env[0].1.None? then [env[0].0] + rest else rest
  }

  /** The corrected start-up check: every one of the three variables must be set. */
  function TokensPresent(practicumToken: Option<string>, telegramToken: Option<string>,
                         telegramChatId: Option<string>): (ok: bool)
    ensures ok <==> practicumToken.Some? && telegramToken.Some? && telegramChatId.Some?
  {
    var env := TokenEnvironment(practicumToken, telegramToken, telegramChatId);
    assert env[0].1 == practicumToken && env[1].1 == telegramToken && env[2].1 == telegramChatId;
    MissingTokens(env) == []
  }

  /** The check as written accepts a configuration whose chat id and bot token are unset. */
  lemma CheckTokensAcceptsMissingTokens()
    ensures CheckTokens(Some("token"), None, None)
    ensures !TokensPresent(Some("token"), None, None)
  {
  }
}
