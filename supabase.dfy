/**
 * The store client: the normaliser every store response passes through,
 * the request bodies it builds, and the tables it reads and writes, kept
 * here in memory as the fields of `Store`. HTTP transport (URLs, headers,
 * timeouts) is not modelled; every store call below succeeds the way the
 * store's REST interface answers it.
 */
module Supabase {
  import opened Wrappers
  import opened Json
  import opened Http
  import opened Schemas
  import opened Ledger

  // ------------------------------------------------------------ responses

  /**
   * A store response: status code, `content-type` header, raw text, and the
   * text parsed as JSON (None when it does not parse).
   */
  datatype Response = Response(status: int, contentType: string, text: string, json: Option<Json>)

  predicate JsonContent(resp: Response)
  {
    "application/json" <= resp.contentType
  }

  /**
   * `_handle_response`: 4xx/5xx is an error with the same code (its detail
   * the JSON body, or the text when the content type is not JSON); 204 is
   * the empty list; a list is returned unchanged; an object becomes a
   * one-element list; any other payload is a 500. A body that claims JSON
   * but does not parse raises while being read, which surfaces as a 500.
   */
  function HandleResponse(resp: Response): (r: Result<seq<Json>, HttpError>)
    ensures resp.status >= 400 && (!JsonContent(resp) || resp.json.Some?) ==>
              r.Failure? && r.error.code == resp.status
    ensures resp.status >= 400 && !JsonContent(resp) ==> r == Failure(HttpError(resp.status, JStr(resp.text)))
    ensures resp.status >= 400 && JsonContent(resp) && resp.json.Some? ==>
              r == Failure(HttpError(resp.status, resp.json.value))
    ensures resp.status >= 400 && JsonContent(resp) && resp.json.None? ==> r == Failure(InternalError())
    ensures resp.status == 204 ==> r == Success([])
    ensures resp.status < 400 && resp.status != 204 ==>
              match resp.json
              case Some(JList(items)) => r == Success(items)
              case Some(JObject(fields)) => r == Success([JObject(fields)])
              case _ => r.Failure? && r.error.code == InternalServerError
    ensures r.Failure? ==> r.error.code >= 400
  {
    if resp.status >= 400 then
      if !JsonContent(resp) then Failure(HttpError(resp.status, JStr(resp.text)))
      else if resp.json.None? then Failure(InternalError())
      else Failure(HttpError(resp.status, resp.json.value))
    else if resp.status == 204 then Success([])
    else match resp.json
      case None => Failure(InternalError())
      case Some(JList(items)) => Success(items)
      case Some(JObject(fields)) => Success([JObject(fields)])
      case Some(_) => Failure(HttpError(InternalServerError, JStr("Unexpected Supabase response format")))
  }

  // ------------------------------------------------------------ record helpers

  /** `{**payload, "user_id": user_id}`: the caller's id overrides any id in the payload. */
  function WithUserId(payload: Record, userId: string): (body: Record)
    ensures body.Keys == payload.Keys + {"user_id"}
    ensures body["user_id"] == JStr(userId)
    ensures forall k :: k in payload && k != "user_id" ==> body[k] == payload[k]
  {
    payload["user_id" := JStr(userId)]
  }

  /** `data[0] if data else None`. */
  function FirstOrNone<T>(rows: seq<T>): (r: Option<T>)
    ensures r.None? <==> rows == []
    ensures r.Some? ==> r.value == rows[0]
  {
    if rows == [] then None else Some(rows[0])
  }

  /** `record.setdefault(key, value)`: the record with `key` bound, an existing binding kept. */
  function SetDefault(r: Record, key: string, value: Json): (t: Record)
    ensures t.Keys == r.Keys + {key}
    ensures key in r ==> t == r
    ensures key !in r ==> t[key] == value && forall k :: k in r ==> t[k] == r[k]
  {
    if key in r then r else r[key := value]
  }

  /**
   * What `fetch_question` makes of the rows it reads: 404 when there are
   * none; otherwise the first row, with `answers` defaulted to the empty
   * list only when absent. A first row that is not an object has no
   * `setdefault` and raises.
   */
  function SelectQuestion(rows: seq<Json>): (r: Result<Record, HttpError>)
    ensures rows == [] ==> r == Failure(HttpError(NotFound, JStr("Question not found")))
    ensures r.Success? <==> rows != [] && rows[0].JObject?
    ensures r.Success? ==> "answers" in r.value
    ensures r.Success? && "answers" in rows[0].fields ==> r.value == rows[0].fields
    ensures r.Success? && "answers" !in rows[0].fields ==>
              r.value == rows[0].fields["answers" := JList([])]
  {
    if rows == [] then Failure(HttpError(NotFound, JStr("Question not found")))
    else match rows[0]
      case JObject(fields) => Success(SetDefault(fields, "answers", JList([])))
      case _ => Failure(InternalError())
  }

  /** The body `create_answer` posts. */
  function AnswerBody(questionId: string, userId: string, content: string): Record
  {
    map["question_id" := JStr(questionId), "lawyer_id" := JStr(userId), "content" := JStr(content)]
  }

  /** An answer row as the store returns it: the posted body plus the assigned id. */
  function AnswerRecord(a: Answer): (r: Record)
    ensures AnswerResponseFrom(r) == Success(AnswerResponse(a.id, a.questionId, a.lawyerId, a.content, None))
  {
    AnswerBody(a.questionId, a.lawyerId, a.content)["id" := JStr(a.id)]
  }

  /**
   * The positions, in table order, of exactly the answers filed under
   * `questionId`: what the filter `answers.question_id = id` selects.
   */
  ghost function AnswerIndices(answers: seq<Answer>, questionId: string): (idx: seq<nat>)
    ensures forall i :: 0 <= i < |idx| ==> idx[i] < |answers| && answers[idx[i]].questionId == questionId
    ensures forall i, j :: 0 <= i < j < |idx| ==> idx[i] < idx[j]
    ensures forall k :: 0 <= k < |answers| && answers[k].questionId == questionId ==> k in idx
    decreases |answers|
  {
    if answers == [] then []
    else
      var prefix := answers[..|answers| - 1];
      var rest := AnswerIndices(prefix, questionId);
      assert forall k :: 0 <= k < |prefix| ==> prefix[k] == answers[k];
      if answers[|answers| - 1].questionId == questionId then rest + [|answers| - 1] else rest
  }

  /**
   * The positions, in table order, of exactly the questions whose `id` is
   * `questionId`.
   */
  ghost function QuestionIndices(questions: seq<Record>, questionId: string): (idx: seq<nat>)
    ensures forall i :: 0 <= i < |idx| ==> idx[i] < |questions| && Get(questions[idx[i]], "id") == JStr(questionId)
    ensures forall i, j :: 0 <= i < j < |idx| ==> idx[i] < idx[j]
    ensures forall k :: 0 <= k < |questions| && Get(questions[k], "id") == JStr(questionId) ==> k in idx
    decreases |questions|
  {
    if questions == [] then []
    else
      var prefix := questions[..|questions| - 1];
      var rest := QuestionIndices(prefix, questionId);
      assert forall k :: 0 <= k < |prefix| ==> prefix[k] == questions[k];
      if Get(questions[|questions| - 1], "id") == JStr(questionId) then rest + [|questions| - 1] else rest
  }

  /** The first position `QuestionIndices` yields is the first match in the table. */
  lemma {:induction false} FirstQuestionIndex(questions: seq<Record>, questionId: string)
    requires QuestionIndices(questions, questionId) != []
    ensures forall k :: 0 <= k < QuestionIndices(questions, questionId)[0] ==>
              Get(questions[k], "id") != JStr(questionId)
    decreases |questions|
  {
    var prefix := questions[..|questions| - 1];
    assert forall k :: 0 <= k < |prefix| ==> prefix[k] == questions[k];
    if QuestionIndices(prefix, questionId) != [] {
      FirstQuestionIndex(prefix, questionId);
    }
  }

  /** The answers of one question, as the nested `answers(*)` selection embeds them. */
  function AnswersOf(answers: seq<Answer>, questionId: string): seq<Json>
    decreases |answers|
  {
    if answers == [] then []
    else
      var rest := AnswersOf(answers[..|answers| - 1], questionId);
      var last := answers[|answers| - 1];
      if last.questionId == questionId then rest + [JObject(AnswerRecord(last))] else rest
  }

  /**
   * The embedded answers are exactly the records of the question's answers,
   * one per answer, in table order.
   */
  lemma {:induction false} AnswersOfSelects(answers: seq<Answer>, questionId: string)
    ensures |AnswersOf(answers, questionId)| == |AnswerIndices(answers, questionId)|
    ensures forall i :: 0 <= i < |AnswersOf(answers, questionId)| ==>
              AnswersOf(answers, questionId)[i] == JObject(AnswerRecord(answers[AnswerIndices(answers, questionId)[i]]))
    decreases |answers|
  {
    if answers != [] {
      var n := |answers| - 1;
      var prefix := answers[..n];
      AnswersOfSelects(prefix, questionId);
      var r, rp := AnswersOf(answers, questionId), AnswersOf(prefix, questionId);
      var idx, ip := AnswerIndices(answers, questionId), AnswerIndices(prefix, questionId);
      if answers[n].questionId == questionId {
        assert r == rp + [JObject(AnswerRecord(answers[n]))] && idx == ip + [n];
        forall i | 0 <= i < |r| ensures r[i] == JObject(AnswerRecord(answers[idx[i]])) {
          if i < |rp| {
            assert prefix[ip[i]] == answers[ip[i]];
          }
        }
      } else {
        assert r == rp && idx == ip;
        forall i | 0 <= i < |r| ensures r[i] == JObject(AnswerRecord(answers[idx[i]])) {
          assert prefix[ip[i]] == answers[ip[i]];
        }
      }
    }
  }

  /** A question row with `answers` bound to the embedded answers of `questionId`. */
  function WithAnswers(question: Record, answers: seq<Answer>, questionId: string): Record
  {
    question["answers" := JList(AnswersOf(answers, questionId))]
  }

  /**
   * The rows `select=*,answers(*)` with `id=eq.<questionId>` yields: each
   * question whose id matches, with its answers embedded.
   */
  function QuestionRows(questions: seq<Record>, answers: seq<Answer>, questionId: string): seq<Json>
    decreases |questions|
  {
    if questions == [] then []
    else
      var last := questions[|questions| - 1];
      var rest := QuestionRows(questions[..|questions| - 1], answers, questionId);
      if Get(last, "id") == JStr(questionId) then
        rest + [JObject(WithAnswers(last, answers, questionId))]
      else
        rest
  }

  /**
   * The rows read are exactly the stored questions whose id matches, in
   * table order, each with its answers embedded.
   */
  lemma {:induction false} QuestionRowsSelect(questions: seq<Record>, answers: seq<Answer>, questionId: string)
    ensures |QuestionRows(questions, answers, questionId)| == |QuestionIndices(questions, questionId)|
    ensures forall i :: 0 <= i < |QuestionRows(questions, answers, questionId)| ==>
              QuestionRows(questions, answers, questionId)[i]
                == JObject(WithAnswers(questions[QuestionIndices(questions, questionId)[i]], answers, questionId))
    decreases |questions|
  {
    if questions != [] {
      var n := |questions| - 1;
      var prefix := questions[..n];
      QuestionRowsSelect(prefix, answers, questionId);
      var rows, rp := QuestionRows(questions, answers, questionId), QuestionRows(prefix, answers, questionId);
      var idx, ip := QuestionIndices(questions, questionId), QuestionIndices(prefix, questionId);
      if Get(questions[n], "id") == JStr(questionId) {
        assert rows == rp + [JObject(WithAnswers(questions[n], answers, questionId))] && idx == ip + [n];
        forall i | 0 <= i < |rows| ensures rows[i] == JObject(WithAnswers(questions[idx[i]], answers, questionId)) {
          if i < |rp| {
            assert prefix[ip[i]] == questions[ip[i]];
          }
        }
      } else {
        assert rows == rp && idx == ip;
        forall i | 0 <= i < |rows| ensures rows[i] == JObject(WithAnswers(questions[idx[i]], answers, questionId)) {
          assert prefix[ip[i]] == questions[ip[i]];
        }
      }
    }
  }

  // ------------------------------------------------------------ the store

  /** The store's tables, updated in place by the service methods. */
  class Store {
    var profiles: map<string, Profile>
    var answers: seq<Answer>
    var questions: seq<Record>
    var documents: seq<Record>
    const balanceDefault: Option<int>

    /** The ledger part of the store. */
    function Ledger(): State
      reads this
    {
      State(profiles, answers, balanceDefault)
    }

    /**
     * The profiles are keyed by user id, and every question row carries the
     * id the store assigned it.
     */
    ghost predicate Valid()
      reads this
    {
      && Keyed(Ledger())
      && forall i :: 0 <= i < |questions| ==> Get(questions[i], "id") == JStr(RowId(i))
    }

    constructor (balanceDefault: Option<int>)
      ensures Valid()
      ensures profiles == map[] && answers == [] && questions == [] && documents == []
      ensures this.balanceDefault == balanceDefault
    {
      profiles := map[];
      answers := [];
      questions := [];
      documents := [];
      this.balanceDefault := balanceDefault;
    }

    /** `get_lawyer_profile`: the caller's row, or None when there is none. */
    method GetLawyerProfile(userId: string) returns (p: Option<Profile>)
      requires Valid()
      ensures p.Some? <==> userId in profiles
      ensures p.Some? ==> p.value == profiles[userId] && p.value.userId == userId
    {
      var rows := if userId in profiles then [profiles[userId]] else [];
      p := FirstOrNone(rows);
    }

    /** `upsert_lawyer_profile`: the row is keyed by the caller's own id. */
    method UpsertLawyerProfile(userId: string, payload: ProfilePayload) returns (p: Profile)
      requires Valid()
      modifies this
      ensures Valid()
      ensures Ledger() == Upsert(old(Ledger()), userId, payload)
      ensures p == profiles[userId]
      ensures questions == old(questions) && documents == old(documents)
    {
      var row :=
        if userId in profiles then
          profiles[userId].(userId := userId, name := payload.name,
                            documentUrl := Some(payload.documentUrl), status := payload.status)
        else
          Profile(RowId(|profiles|), userId, payload.name, payload.status,
                  Some(payload.documentUrl), balanceDefault);
      profiles := profiles[userId := row];
      p := row;
    }

    /** `_patch` on `lawyer_profiles` filtered by `user_id`, with 404 when no row matches. */
    method PatchProfile(userId: string, patch: ProfilePatch) returns (r: Result<Profile, HttpError>)
      requires Valid()
      modifies this
      ensures Valid()
      ensures r == PatchResult(old(Ledger()), userId, patch)
      ensures Ledger() == Patched(old(Ledger()), userId, patch)
      ensures questions == old(questions) && documents == old(documents)
    {
      if userId in profiles {
        var row := ApplyPatch(profiles[userId], patch);
        profiles := profiles[userId := row];
        r := Success(row);
      } else {
        r := Failure(HttpError(NotFound, JStr("Lawyer profile not found")));
      }
    }

    /** `update_lawyer_status`. */
    method UpdateLawyerStatus(userId: string, status: Status, balanceOverride: Option<int>)
      returns (r: Result<Profile, HttpError>)
      requires Valid()
      modifies this
      ensures Valid()
      ensures r == PatchResult(old(Ledger()), userId, StatusPatch(status, balanceOverride))
      ensures Ledger() == Patched(old(Ledger()), userId, StatusPatch(status, balanceOverride))
      ensures questions == old(questions) && documents == old(documents)
    {
      r := PatchProfile(userId, StatusPatch(status, balanceOverride));
    }

    /** `deduct_lawyer_balance`: writes the given absolute balance. */
    method DeductLawyerBalance(userId: string, newBalance: int) returns (r: Result<Profile, HttpError>)
      requires Valid()
      modifies this
      ensures Valid()
      ensures r == PatchResult(old(Ledger()), userId, BalancePatch(newBalance))
      ensures Ledger() == Patched(old(Ledger()), userId, BalancePatch(newBalance))
      ensures questions == old(questions) && documents == old(documents)
    {
      r := PatchProfile(userId, BalancePatch(newBalance));
    }

    /** `create_answer`: inserts one row and returns it. */
    method CreateAnswer(questionId: string, userId: string, content: string) returns (row: Record)
      requires Valid()
      modifies this
      ensures Valid()
      ensures Ledger() == AppendAnswer(old(Ledger()), questionId, userId, content)
      ensures row == AnswerRecord(answers[|answers| - 1])
      ensures questions == old(questions) && documents == old(documents)
    {
      var a := Answer(RowId(|answers|), questionId, userId, content);
      answers := answers + [a];
      row := AnswerRecord(a);
    }

    /** `create_question`: inserts the payload under the caller's id. */
    method CreateQuestion(userId: string, payload: Record) returns (row: Record)
      requires Valid()
      modifies this
      ensures Valid()
      ensures row == WithUserId(payload, userId)["id" := JStr(RowId(|old(questions)|))]
      ensures questions == old(questions) + [row]
      ensures Ledger() == old(Ledger()) && documents == old(documents)
    {
      row := WithUserId(payload, userId)["id" := JStr(RowId(|questions|))];
      questions := questions + [row];
    }

    /**
     * `fetch_question`: the first stored question with that id, with its
     * answers embedded, or 404.
     */
    method FetchQuestion(questionId: string) returns (r: Result<Record, HttpError>)
      ensures r.Success? <==> exists i :: 0 <= i < |questions| && Get(questions[i], "id") == JStr(questionId)
      ensures r.Failure? ==> r.error == HttpError(NotFound, JStr("Question not found"))
      ensures r.Success? ==>
        exists j :: 0 <= j < |questions|
          && Get(questions[j], "id") == JStr(questionId)
          && (forall k :: 0 <= k < j ==> Get(questions[k], "id") != JStr(questionId))
          && r.value == WithAnswers(questions[j], answers, questionId)
      ensures r.Success? ==>
        && Get(r.value, "id") == JStr(questionId)
        && Get(r.value, "answers") == JList(AnswersOf(answers, questionId))
    {
      var rows := QuestionRows(questions, answers, questionId);
      r := SelectQuestion(rows);
      ghost var idx := QuestionIndices(questions, questionId);
      QuestionRowsSelect(questions, answers, questionId);
      if idx != [] {
        ghost var j := idx[0];
        assert rows[0] == JObject(WithAnswers(questions[j], answers, questionId));
        FirstQuestionIndex(questions, questionId);
        assert Get(questions[j], "id") == JStr(questionId);
      }
    }

    /** `create_document`: inserts the payload as given. */
    method CreateDocument(payload: Record) returns (row: Record)
      modifies this
      ensures row == payload["id" := JStr(RowId(|old(documents)|))]
      ensures documents == old(documents) + [row]
      ensures Ledger() == old(Ledger()) && questions == old(questions)
    {
      row := payload["id" := JStr(RowId(|documents|))];
      documents := documents + [row];
    }
  }
}
