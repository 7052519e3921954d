/** The guard-and-return functions of homework.py: the token check, the
    status-code check of get_api_answer, check_response and parse_status with
    its verdict table. Each raised exception is a `Failure` carrying its class
    and its text. */
module Homework {
  import opened Wrappers
  import opened JsonValues
  import opened Exceptions
  import Decimal

  /** Thirty days in seconds: how far back the first request looks. */
  const LastMonth: int := 30 * 24 * 60 * 60

  /** `HTTPStatus.OK`. */
  const HttpOk: nat := 200

  /** The statuses of `HomeworkVerdicts`, in the table's order. */
  const Statuses: seq<string> := ["approved", "reviewing", "rejected"]

  /** Status of a homework review -> the human text sent to the chat. */
  const HomeworkVerdicts: map<string, string> := map[
    "approved" := "Работа проверена: ревьюеру всё понравилось. Ура!",
    "reviewing" := "Работа взята на проверку ревьюером.",
    "rejected" := "Работа проверена: у ревьюера есть замечания."
  ]

  lemma VerdictTable()
    ensures HomeworkVerdicts.Keys == set s | s in Statuses
    ensures |Statuses| == 3
    ensures Statuses[0] != Statuses[1] && Statuses[1] != Statuses[2] && Statuses[0] != Statuses[2]
    ensures HomeworkVerdicts[Statuses[0]] != HomeworkVerdicts[Statuses[1]]
    ensures HomeworkVerdicts[Statuses[1]] != HomeworkVerdicts[Statuses[2]]
    ensures HomeworkVerdicts[Statuses[0]] != HomeworkVerdicts[Statuses[2]]
  {
  }

  // ---------------------------------------------------------------- check_tokens

  /** Python truthiness of an environment variable read with `os.getenv`:
      neither unset (None) nor empty. */
  predicate Present(token: Option<string>) {
    token.Some? && token.value != ""
  }

  /** `all(tokens)`. */
  function All(tokens: seq<Option<string>>): (r: bool)
    ensures r <==> forall i :: 0 <= i < |tokens| ==> Present(tokens[i])
  {
    if tokens == [] then true else Present(tokens[0]) && All(tokens[1..])
  }

  /** check_tokens: `True`, or a raised TokenError (which carries no text). */
  function CheckTokens(practicumToken: Option<string>, telegramToken: Option<string>,
                       telegramChatId: Option<string>): (r: Result<bool, Error>)
    ensures r.Success? <==> Present(practicumToken) && Present(telegramToken) && Present(telegramChatId)
    ensures r.Success? ==> r.value
    ensures r.Failure? ==> r.error == Error(TokenError, "") && r.error.kind.IsPraktikumAPIError()
  {
    var tokens := [practicumToken, telegramToken, telegramChatId];
    assert tokens[0] == practicumToken && tokens[1] == telegramToken && tokens[2] == telegramChatId;
    if All(tokens) then Success(true) else Failure(Error(TokenError, ""))
  }

  // -------------------------------------------------------------- get_api_answer

  /** What the status API did with one request: the HTTP layer failed (`requests`
      raised a RequestException whose text is `cause`), or it answered with a
      status code and a body, already decoded from JSON. */
  datatype FetchOutcome =
    | RequestFailed(cause: string)
    | Responded(statusCode: nat, body: Json)

  const RequestFailedPrefix := "Ошибка запроса: "
  const EndpointUnavailablePrefix := "Эндпоинт недоступен. Код ответа: "

  /** get_api_answer after the request: the decoded body on a 200 answer; an
      APIResponseError embedding the status code otherwise, or embedding the
      cause when the request itself failed. */
  function GetApiAnswer(fetch: FetchOutcome): (r: Result<Json, Error>)
    ensures r.Success? <==> fetch.Responded? && fetch.statusCode == HttpOk
    ensures r.Success? ==> r.value == fetch.body
    ensures r.Failure? ==> r.error.kind == APIResponseError && r.error.kind.IsPraktikumAPIError()
    ensures fetch.RequestFailed? ==> r.error.text == RequestFailedPrefix + fetch.cause
    ensures fetch.Responded? && fetch.statusCode != HttpOk ==>
              r.error.text == EndpointUnavailablePrefix + Decimal.Show(fetch.statusCode)
  {
    match fetch
    case RequestFailed(cause) => Failure(Error(APIResponseError, RequestFailedPrefix + cause))
    case Responded(code, body) =>
      if code != HttpOk then
        Failure(Error(APIResponseError, EndpointUnavailablePrefix + Decimal.Show(code)))
      else
        Success(body)
  }

  /** The error text of a non-200 answer names the status code: two different
      codes never give the same text, and so are never deduplicated together. */
  lemma StatusCodeErrorsDistinct(a: nat, b: nat)
    requires a != HttpOk && b != HttpOk && a != b
    ensures GetApiAnswer(Responded(a, JNull)).error.text != GetApiAnswer(Responded(b, JNull)).error.text
  {
    var ta := GetApiAnswer(Responded(a, JNull)).error.text;
    var tb := GetApiAnswer(Responded(b, JNull)).error.text;
    if ta == tb {
      var n := |EndpointUnavailablePrefix|;
      assert ta[n..] == Decimal.Show(a);
      assert tb[n..] == Decimal.Show(b);
      Decimal.ShowInjective(a, b);
    }
  }

  /** Likewise, different transport failures give different texts. */
  lemma RequestErrorsDistinct(c: string, d: string)
    requires c != d
    ensures GetApiAnswer(RequestFailed(c)).error.text != GetApiAnswer(RequestFailed(d)).error.text
  {
    var n := |RequestFailedPrefix|;
    assert (RequestFailedPrefix + c)[n..] == c;
    assert (RequestFailedPrefix + d)[n..] == d;
  }

  // -------------------------------------------------------------- check_response

  const NotADictText := "Ответ API не является словарем"
  const NoHomeworksKeyText := "В ответе API отсутствует ключ \"homeworks\""
  const NotAListText := "Домашние работы должны быть в формате списка"

  /** The shape check_response accepts: an object whose "homeworks" member is an array. */
  predicate HasHomeworkList(response: Json) {
    response.JObject? && "homeworks" in response.fields && response.fields["homeworks"].JArray?
  }

  /** check_response: the "homeworks" array of the response, or a TypeError
      saying which of the three checks failed first. */
  function CheckResponse(response: Json): (r: Result<seq<Json>, Error>)
    ensures r.Success? <==> HasHomeworkList(response)
    ensures r.Success? ==> r.value == response.fields["homeworks"].items
    ensures r.Failure? ==> r.error.kind == TypeError && !r.error.kind.IsPraktikumAPIError()
    ensures !response.JObject? ==> r.Failure? && r.error.text == NotADictText
    ensures response.JObject? && "homeworks" !in response.fields ==>
              r.Failure? && r.error.text == NoHomeworksKeyText
    ensures response.JObject? && "homeworks" in response.fields && !response.fields["homeworks"].JArray? ==>
              r.Failure? && r.error.text == NotAListText
  {
    if !response.JObject? then Failure(Error(TypeError, NotADictText))
    else if "homeworks" !in response.fields then Failure(Error(TypeError, NoHomeworksKeyText))
    else match response.fields["homeworks"]
      case JArray(homeworks) => Success(homeworks)
      case _ => Failure(Error(TypeError, NotAListText))
  }

  /** Members other than "homeworks" (such as "current_date") do not change the
      outcome of check_response. */
  lemma CheckResponseIgnoresOtherKeys(fields: map<string, Json>, key: string, value: Json)
    requires key != "homeworks"
    ensures CheckResponse(JObject(fields[key := value])) == CheckResponse(JObject(fields))
  {
  }

  /** The three failures of check_response are told apart by their texts. */
  lemma CheckResponseErrorsDistinct()
    ensures NotADictText != NoHomeworksKeyText
    ensures NoHomeworksKeyText != NotAListText
    ensures NotADictText != NotAListText
  {
  }

  // ---------------------------------------------------------------- parse_status

  /** The keys parse_status requires, in the order it checks them. */
  const RequiredKeys: seq<string> := ["status", "homework_name"]

  /** The records this model covers: a JSON object whose "status" and
      "homework_name" members, when present, are strings. */
  predicate IsRecord(homework: Json) {
    && homework.JObject?
    && ("status" in homework.fields ==> homework.fields["status"].JString?)
    && ("homework_name" in homework.fields ==> homework.fields["homework_name"].JString?)
  }

  /** The first of `keys` missing from `fields`, as the `for key in ...` loop finds it. */
  function FirstMissingKey(keys: seq<string>, fields: map<string, Json>): (r: Option<string>)
    ensures r.None? <==> forall i :: 0 <= i < |keys| ==> keys[i] in fields
    ensures r.Some? ==> exists i :: 0 <= i < |keys| && keys[i] == r.value && r.value !in fields &&
                                    forall j :: 0 <= j < i ==> keys[j] in fields
  {
    if keys == [] then None
    else if keys[0] !in fields then Some(keys[0])
    else
      var r := FirstMissingKey(keys[1..], fields);
      assert r.Some? ==> exists i :: 1 <= i < |keys| && keys[i] == r.value && r.value !in fields &&
                                     forall j :: 0 <= j < i ==> keys[j] in fields by {
        if r.Some? {
          var i :| 0 <= i < |keys| - 1 && keys[1..][i] == r.value && r.value !in fields &&
                   forall j :: 0 <= j < i ==> keys[1..][j] in fields;
          assert keys[i + 1] == r.value;
        }
      }
      r
  }

  function MissingKeyText(key: string): string {
    "Отсутствует ключ \"" + key + "\" в домашней работе"
  }

  const UnexpectedStatusPrefix := "Неожиданный статус домашней работы: "

  const MessagePrefix := "Изменился статус проверки работы \""
  const NameTerminator := "\". "

  /** The notification for a homework whose status maps to `verdict`. */
  function StatusMessage(name: string, verdict: string): string {
    MessagePrefix + name + NameTerminator + verdict
  }

  /** parse_status: the notification text for a homework record, or an
      APIResponseError for a missing key or a status outside the verdict table. */
  function ParseStatus(homework: Json): (r: Result<string, Error>)
    requires IsRecord(homework)
    ensures r.Failure? ==> r.error.kind == APIResponseError && r.error.kind.IsPraktikumAPIError()
    ensures r.Success? <==>
              && "status" in homework.fields && "homework_name" in homework.fields
              && homework.fields["status"].s in HomeworkVerdicts
    ensures "status" !in homework.fields ==> r.Failure? && r.error.text == MissingKeyText("status")
    ensures "status" in homework.fields && "homework_name" !in homework.fields ==>
              r.Failure? && r.error.text == MissingKeyText("homework_name")
    ensures "status" in homework.fields && "homework_name" in homework.fields &&
            homework.fields["status"].s !in HomeworkVerdicts ==>
              r.Failure? && r.error.text == UnexpectedStatusPrefix + homework.fields["status"].s
    ensures r.Success? ==>
              r.value == StatusMessage(homework.fields["homework_name"].s,
                                       HomeworkVerdicts[homework.fields["status"].s])
  {
    match FirstMissingKey(RequiredKeys, homework.fields)
    case Some(key) => Failure(Error(APIResponseError, MissingKeyText(key)))
    case None =>
      assert RequiredKeys[0] == "status" && RequiredKeys[1] == "homework_name";
      var status, name := homework.fields["status"].s, homework.fields["homework_name"].s;
      if status !in HomeworkVerdicts then
        Failure(Error(APIResponseError, UnexpectedStatusPrefix + status))
      else
        Success(StatusMessage(name, HomeworkVerdicts[status]))
  }

  // ------------------------------------------------- reading a notification back

  predicate EndsWith(s: string, suffix: string) {
    |suffix| <= |s| && s[|s| - |suffix|..] == suffix
  }

  /** The homework name and status a notification text was made from, trying
      the statuses of `statuses` in order. */
  function MatchVerdict(msg: string, statuses: seq<string>): Option<(string, string)>
    requires forall i :: 0 <= i < |statuses| ==> statuses[i] in HomeworkVerdicts
  {
    if statuses == [] then None
    else
      var tail := NameTerminator + HomeworkVerdicts[statuses[0]];
      if |MessagePrefix| + |tail| <= |msg| && EndsWith(msg, tail) then
        Some((msg[|MessagePrefix|..|msg| - |tail|], statuses[0]))
      else
        MatchVerdict(msg, statuses[1..])
  }

  /** The inverse of the notification template: the name and status it was built from. */
  function ReadStatusMessage(msg: string): Option<(string, string)> {
    if |msg| < |MessagePrefix| || msg[..|MessagePrefix|] != MessagePrefix then None
    else MatchVerdict(msg, Statuses)
  }

  /** A text ending in one verdict does not end in a verdict whose
      second-to-last character differs. */
  lemma EndingExcludes(msg: string, verdict: string, other: string)
    requires EndsWith(msg, NameTerminator + verdict)
    requires |verdict| >= 2 && |other| >= 2 && verdict[|verdict| - 2] != other[|other| - 2]
    ensures !EndsWith(msg, NameTerminator + other)
  {
    var t, u := NameTerminator + verdict, NameTerminator + other;
    assert msg[|msg| - 2] == msg[|msg| - |t|..][|t| - 2] == t[|t| - 2];
  }

  /** MatchVerdict passes over a status whose ending does not match... */
  lemma MatchVerdictSkips(msg: string, statuses: seq<string>)
    requires forall i :: 0 <= i < |statuses| ==> statuses[i] in HomeworkVerdicts
    requires statuses != [] && !EndsWith(msg, NameTerminator + HomeworkVerdicts[statuses[0]])
    ensures MatchVerdict(msg, statuses) == MatchVerdict(msg, statuses[1..])
  {
  }

  /** ...and stops at one whose ending does, reading the name before it. */
  lemma MatchVerdictStops(msg: string, statuses: seq<string>)
    requires forall i :: 0 <= i < |statuses| ==> statuses[i] in HomeworkVerdicts
    requires statuses != []
    requires |MessagePrefix| + |NameTerminator + HomeworkVerdicts[statuses[0]]| <= |msg|
    requires EndsWith(msg, NameTerminator + HomeworkVerdicts[statuses[0]])
    ensures MatchVerdict(msg, statuses) ==
              Some((msg[|MessagePrefix|..|msg| - |NameTerminator + HomeworkVerdicts[statuses[0]]|], statuses[0]))
  {
  }

  /** How a notification splits: the fixed prefix, the name, then the
      terminator and the verdict. */
  lemma StatusMessageParts(name: string, verdict: string)
    ensures var msg, tail := StatusMessage(name, verdict), NameTerminator + verdict;
            && |msg| == |MessagePrefix| + |name| + |tail|
            && msg[..|MessagePrefix|] == MessagePrefix
            && EndsWith(msg, tail)
            && msg[|MessagePrefix|..|msg| - |tail|] == name
  {
    var msg, tail := StatusMessage(name, verdict), NameTerminator + verdict;
    assert msg == MessagePrefix + (name + tail);
  }

  /** The verdicts' second-to-last characters, which tell them apart. */
  lemma VerdictMarks()
    ensures var approved := HomeworkVerdicts["approved"];
            |approved| >= 2 && approved[|approved| - 2] == 'а'
    ensures var reviewing := HomeworkVerdicts["reviewing"];
            |reviewing| >= 2 && reviewing[|reviewing| - 2] == 'м'
    ensures var rejected := HomeworkVerdicts["rejected"];
            |rejected| >= 2 && rejected[|rejected| - 2] == 'я'
  {
  }

  /** Every notification parse_status can produce can be read back to the name
      and status it was built from. */
  lemma ReadStatusMessageInverse(name: string, status: string)
    requires status in HomeworkVerdicts
    ensures ReadStatusMessage(StatusMessage(name, HomeworkVerdicts[status])) == Some((name, status))
  {
    var verdict := HomeworkVerdicts[status];
    var msg := StatusMessage(name, verdict);
    StatusMessageParts(name, verdict);
    VerdictMarks();
    var afterApproved, afterReviewing := Statuses[1..], Statuses[1..][1..];
    if status == "approved" {
      MatchVerdictStops(msg, Statuses);
    } else {
      EndingExcludes(msg, verdict, HomeworkVerdicts["approved"]);
      MatchVerdictSkips(msg, Statuses);
      if status == "reviewing" {
        MatchVerdictStops(msg, afterApproved);
      } else {
        EndingExcludes(msg, verdict, HomeworkVerdicts["reviewing"]);
        MatchVerdictSkips(msg, afterApproved);
        MatchVerdictStops(msg, afterReviewing);
      }
    }
  }

  /** A notification text determines the record it was made from: two records
      that parse_status accepts give the same text only if they have the same
      name and the same status. */
  lemma StatusMessageInjective(h1: Json, h2: Json)
    requires IsRecord(h1) && IsRecord(h2)
    requires ParseStatus(h1).Success? && ParseStatus(h2).Success?
    ensures ParseStatus(h1) == ParseStatus(h2) <==>
              h1.fields["status"] == h2.fields["status"] &&
              h1.fields["homework_name"] == h2.fields["homework_name"]
  {
    ReadStatusMessageInverse(h1.fields["homework_name"].s, h1.fields["status"].s);
    ReadStatusMessageInverse(h2.fields["homework_name"].s, h2.fields["status"].s);
  }
}
