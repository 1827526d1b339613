/**
 * The question endpoints: creating a question (which survives any failure
 * of the AI-answer step) and a lawyer's paid answer.
 */
module QuestionRoutes {
  import opened Wrappers
  import opened Json
  import opened Http
  import opened Schemas
  import opened Security
  import opened Ledger
  import opened Supabase
  import opened Rag

  /** The placeholder text used when no AI answer could be produced. */
  const FallbackMessage: string := "AI 답변 생성에 실패했습니다. 변호사 답변을 기다려주세요."

  /** The AI answer a question creation ends up with: generated, or the fallback. */
  datatype AiAnswerField =
    | Generated(answer: AiAnswer)
    | Failed(content: string, sources: seq<Source>, error: string)

  /** The fallback answer: the placeholder text, no sources, and the error message. */
  function FallbackAnswer(error: string): (a: AiAnswerField)
    ensures a.Failed? && a.sources == [] && a.error == error && a.content == FallbackMessage
  {
    Failed(FallbackMessage, [], error)
  }

  /** The question row read back: the caller's user_id, a fresh id, and the payload's other fields. */
  lemma QuestionRecordFields(payload: Record, userId: string, id: string, answers: seq<Answer>)
    ensures var q := WithAnswers(WithUserId(payload, userId)["id" := JStr(id)], answers, id);
      && Get(q, "user_id") == JStr(userId) && Get(q, "id") == JStr(id)
      && forall k :: k in payload && k !in {"id", "user_id", "answers"} ==> k in q && q[k] == payload[k]
  {
  }

  /**
   * `create_question`. The question is inserted first; `attempt` is the
   * outcome of the AI-answer step (generation and persistence), whose
   * failure is caught. Either way the handler returns the question read
   * back from the store, with its answers list.
   */
  method CreateQuestion(store: Store, userId: string, payload: Record, attempt: Result<AiAnswer, string>)
    returns (r: Result<Record, HttpError>)
    requires store.Valid()
    modifies store
    ensures store.Valid()
    ensures store.questions ==
              old(store.questions) + [WithUserId(payload, userId)["id" := JStr(RowId(|old(store.questions)|))]]
    ensures store.Ledger() == old(store.Ledger()) && store.documents == old(store.documents)
    ensures r.Success?
    ensures r.value == WithAnswers(store.questions[|old(store.questions)|], store.answers, RowId(|old(store.questions)|))
    ensures Get(r.value, "user_id") == JStr(userId)
    ensures forall k :: k in payload && k !in {"id", "user_id", "answers"} ==> k in r.value && r.value[k] == payload[k]
    ensures Get(r.value, "id") == JStr(RowId(|old(store.questions)|))
    ensures Get(r.value, "answers") == JList(AnswersOf(store.answers, RowId(|old(store.questions)|)))
  {
    var record := store.CreateQuestion(userId, payload);
    var questionId := StrOf(Get(record, "id"));
    // The AI answer is computed but, as in the handler, neither stored nor returned.
    var aiAnswer := match attempt
      case Success(a) => Generated(a)
      case Failure(e) => FallbackAnswer(e);
    ghost var n := |store.questions| - 1;
    assert Get(store.questions[n], "id") == JStr(questionId);
    r := store.FetchQuestion(questionId);
    // Ids are the decimal positions, so the new row is the only match.
    ghost var j :| 0 <= j < |store.questions|
      && Get(store.questions[j], "id") == JStr(questionId)
      && (forall k :: 0 <= k < j ==> Get(store.questions[k], "id") != JStr(questionId))
      && r.value == WithAnswers(store.questions[j], store.answers, questionId);
    NatToStringInjective(j, n);
    QuestionRecordFields(payload, userId, questionId, store.answers);
  }

  /**
   * `create_answer`: the lawyer gate, then the three ordered checks; on
   * success the balance is written as the old balance minus the price and
   * one answer is inserted.
   */
  method CreateAnswer(store: Store, caller: Result<AuthenticatedUser, HttpError>, questionId: string, payload: AnswerCreate)
    returns (r: Result<AnswerResponse, HttpError>)
    requires store.Valid() && ValidAnswerCreate(payload)
    modifies store
    ensures store.Valid()
    ensures store.questions == old(store.questions) && store.documents == old(store.documents)
    ensures RequireRole({Lawyer}, caller).Failure? ==>
              r == Failure(RequireRole({Lawyer}, caller).error) && store.Ledger() == old(store.Ledger())
    ensures RequireRole({Lawyer}, caller).Success? ==>
              var user := caller.value;
              && store.Ledger() == PayAnswer(old(store.Ledger()), user.id, questionId, payload.content)
              && (r.Success? <==> AnswerGate(old(store.profiles), user.id).Success?)
              && (r.Failure? ==> r.error == AnswerGate(old(store.profiles), user.id).error)
              && (r.Success? ==> r.value == AnswerResponse(RowId(|old(store.answers)|), questionId, user.id, payload.content, None))
    ensures Solvent(old(store.Ledger())) ==> Solvent(store.Ledger())
  {
    var admitted := RequireRole({Lawyer}, caller);
    if admitted.Failure? {
      r := Failure(admitted.error);
      return;
    }
    var user := admitted.value;
    var profile := store.GetLawyerProfile(user.id);
    if profile.None? {
      r := Failure(HttpError(Forbidden, JStr("Lawyer profile not found")));
      return;
    }
    if profile.value.status != Approved {
      r := Failure(HttpError(Forbidden, JStr("Lawyer is not approved")));
      return;
    }
    var balance := BalanceValue(profile.value.balance);
    if balance < AnswerPrice {
      r := Failure(HttpError(PaymentRequired, JStr("Insufficient balance (1000 required)")));
      return;
    }
    var deducted := store.DeductLawyerBalance(user.id, balance - AnswerPrice);
    var row := store.CreateAnswer(questionId, user.id, payload.content);
    r := AnswerResponseFrom(row);
  }
}
