/**
 * The lawyer-profile ledger: the profile table keyed by user id, the
 * append-only answer table, and the three transitions that act on them
 * (verification submission, admin status update, paid answer). These
 * functions are the specification the store methods and the route handlers
 * are proved against; the lemmas at the end are about runs of transitions
 * executed one after another.
 */
module Ledger {
  import opened Wrappers
  import opened Json
  import opened Http
  import opened Schemas

  /** The price of one lawyer answer, in balance units. */
  const AnswerPrice: int := 1000

  /**
   * A row of the `lawyer_profiles` table. `balance` is None when the column
   * holds null. Only the three status literals are ever written to it.
   */
  datatype Profile = Profile(
    id: string, userId: string, name: string, status: Status,
    documentUrl: Option<string>, balance: Option<int>)

  /** A row of the `answers` table. */
  datatype Answer = Answer(id: string, questionId: string, lawyerId: string, content: string)

  /**
   * The two tables and the balance a freshly inserted profile row receives
   * (the column default, which is not part of the source).
   */
  datatype State = State(profiles: map<string, Profile>, answers: seq<Answer>, balanceDefault: Option<int>)

  /** Identifier the store assigns to the n-th row of a table. */
  function RowId(n: nat): string
  {
    NatToString(n)
  }

  /** Every profile is stored under its own user id. */
  ghost predicate Keyed(s: State)
  {
    forall u :: u in s.profiles ==> s.profiles[u].userId == u
  }

  predicate NonNegative(b: Option<int>)
  {
    b.None? || b.value >= 0
  }

  /** No stored balance, and no balance a new row would receive, is negative. */
  ghost predicate Solvent(s: State)
  {
    NonNegative(s.balanceDefault) && forall u :: u in s.profiles ==> NonNegative(s.profiles[u].balance)
  }

  /** `int(profile.get("balance") or 0)`: a null balance counts as 0. */
  function BalanceValue(b: Option<int>): int
  {
    match b
    case None => 0
    case Some(v) => v
  }

  /** The balance the paid-answer gate reads for a user (a missing row would receive the default). */
  function Funds(s: State, u: string): int
  {
    if u in s.profiles then BalanceValue(s.profiles[u].balance) else BalanceValue(s.balanceDefault)
  }

  // ------------------------------------------------------------ upsert

  /** The columns an upsert writes. */
  datatype ProfilePayload = ProfilePayload(name: string, documentUrl: string, status: Status)

  /**
   * Upsert on conflict of `user_id` with merge of duplicates: an existing
   * row keeps its id and balance and takes the written columns; otherwise a
   * new row is inserted.
   */
  function Upsert(s: State, userId: string, payload: ProfilePayload): (t: State)
    ensures t.profiles.Keys == s.profiles.Keys + {userId}
    ensures t.answers == s.answers && t.balanceDefault == s.balanceDefault
    ensures var p := t.profiles[userId];
            && p.userId == userId && p.name == payload.name
            && p.documentUrl == Some(payload.documentUrl) && p.status == payload.status
            && p.balance == (if userId in s.profiles then s.profiles[userId].balance else s.balanceDefault)
    ensures userId in s.profiles ==> t.profiles[userId].id == s.profiles[userId].id
    ensures forall v :: v in s.profiles && v != userId ==> t.profiles[v] == s.profiles[v]
    ensures Keyed(s) ==> Keyed(t)
    ensures Solvent(s) ==> Solvent(t)
  {
    var row :=
      if userId in s.profiles then
        s.profiles[userId].(userId := userId, name := payload.name,
                            documentUrl := Some(payload.documentUrl), status := payload.status)
      else
        Profile(RowId(|s.profiles|), userId, payload.name, payload.status,
                Some(payload.documentUrl), s.balanceDefault);
    s.(profiles := s.profiles[userId := row])
  }

  /** The columns a lawyer's verification submission writes: status forced to pending, no balance. */
  function SubmissionPayload(req: LawyerVerificationRequest): (p: ProfilePayload)
    ensures p.status == Pending
    ensures p.name == req.name && p.documentUrl == req.verificationDocumentUrl
  {
    ProfilePayload(req.name, req.verificationDocumentUrl, Pending)
  }

  /** A verification submission. */
  function Submit(s: State, userId: string, req: LawyerVerificationRequest): (t: State)
    ensures userId in t.profiles && t.profiles[userId].status == Pending
    ensures t.profiles[userId].name == req.name
    ensures t.profiles[userId].documentUrl == Some(req.verificationDocumentUrl)
    ensures t.profiles[userId].balance ==
              (if userId in s.profiles then s.profiles[userId].balance else s.balanceDefault)
    ensures Funds(t, userId) == Funds(s, userId)
  {
    Upsert(s, userId, SubmissionPayload(req))
  }

  // ------------------------------------------------------------ patch

  /** The columns a patch writes; a None column is left out of the patch body. */
  datatype ProfilePatch = ProfilePatch(status: Option<Status>, balance: Option<int>)

  /** The body of `update_lawyer_status`: the status, and the balance only when an override is given. */
  function StatusPatch(status: Status, balanceOverride: Option<int>): (p: ProfilePatch)
    ensures p.status == Some(status)
    ensures p.balance.Some? <==> balanceOverride.Some?
    ensures p.balance.Some? ==> p.balance.value == balanceOverride.value
  {
    ProfilePatch(Some(status), balanceOverride)
  }

  /** The body of `deduct_lawyer_balance`: the given absolute balance and nothing else. */
  function BalancePatch(newBalance: int): (p: ProfilePatch)
    ensures p.status.None? && p.balance == Some(newBalance)
  {
    ProfilePatch(None, Some(newBalance))
  }

  function ApplyPatch(p: Profile, patch: ProfilePatch): Profile
  {
    p.(status := if patch.status.Some? then patch.status.value else p.status,
       balance := if patch.balance.Some? then patch.balance else p.balance)
  }

  /** The table after patching the row whose `user_id` matches (no row: nothing changes). */
  function Patched(s: State, userId: string, patch: ProfilePatch): (t: State)
    ensures t.profiles.Keys == s.profiles.Keys
    ensures t.answers == s.answers && t.balanceDefault == s.balanceDefault
    ensures forall v :: v in s.profiles && v != userId ==> t.profiles[v] == s.profiles[v]
    ensures userId !in s.profiles ==> t == s
    ensures Keyed(s) ==> Keyed(t)
  {
    if userId in s.profiles then s.(profiles := s.profiles[userId := ApplyPatch(s.profiles[userId], patch)])
    else s
  }

  /** What a patch returns: the updated row, or 404 when no row matches. */
  function PatchResult(s: State, userId: string, patch: ProfilePatch): (r: Result<Profile, HttpError>)
    ensures r.Success? <==> userId in s.profiles
    ensures r.Success? ==> r.value == Patched(s, userId, patch).profiles[userId]
    ensures r.Failure? ==> r.error == HttpError(NotFound, JStr("Lawyer profile not found"))
  {
    if userId in s.profiles then Success(ApplyPatch(s.profiles[userId], patch))
    else Failure(HttpError(NotFound, JStr("Lawyer profile not found")))
  }

  /**
   * An admin status update: the status becomes exactly the requested one;
   * the balance changes only when a reset is given and then equals it.
   */
  function SetStatus(s: State, userId: string, update: LawyerStatusUpdate): (t: State)
    ensures t.profiles.Keys == s.profiles.Keys && t.answers == s.answers
    ensures userId in t.profiles ==> t.profiles[userId].status == update.status
    ensures userId in t.profiles ==>
              t.profiles[userId].balance ==
                (if update.resetBalance.Some? then update.resetBalance else s.profiles[userId].balance)
    ensures userId in t.profiles ==>
              t.profiles[userId].(status := s.profiles[userId].status, balance := s.profiles[userId].balance)
                == s.profiles[userId]
    ensures forall v :: v in s.profiles && v != userId ==> t.profiles[v] == s.profiles[v]
    ensures Solvent(s) && ValidStatusUpdate(update) ==> Solvent(t)
  {
    Patched(s, userId, StatusPatch(update.status, update.resetBalance))
  }

  // ------------------------------------------------------------ paid answer

  /**
   * The three checks of a paid answer, in order: the profile exists (403),
   * its status is exactly approved (403), its balance is at least the price
   * (402). On success, the balance that passed.
   */
  function AnswerGate(profiles: map<string, Profile>, userId: string): (r: Result<int, HttpError>)
    ensures r.Success? <==>
      userId in profiles && profiles[userId].status == Approved
      && BalanceValue(profiles[userId].balance) >= AnswerPrice
    ensures r.Success? ==> r.value == BalanceValue(profiles[userId].balance) && r.value - AnswerPrice >= 0
    ensures userId !in profiles ==> r == Failure(HttpError(Forbidden, JStr("Lawyer profile not found")))
    ensures userId in profiles && profiles[userId].status != Approved ==>
              r == Failure(HttpError(Forbidden, JStr("Lawyer is not approved")))
    ensures userId in profiles && profiles[userId].status == Approved
            && BalanceValue(profiles[userId].balance) < AnswerPrice ==>
              r == Failure(HttpError(PaymentRequired, JStr("Insufficient balance (1000 required)")))
  {
    if userId !in profiles then Failure(HttpError(Forbidden, JStr("Lawyer profile not found")))
    else
      var profile := profiles[userId];
      if profile.status != Approved then Failure(HttpError(Forbidden, JStr("Lawyer is not approved")))
      else
        var balance := BalanceValue(profile.balance);
        if balance < AnswerPrice then Failure(HttpError(PaymentRequired, JStr("Insufficient balance (1000 required)")))
        else Success(balance)
  }

  /** The answer row the store inserts next. */
  function NextAnswer(s: State, questionId: string, lawyerId: string, content: string): Answer
  {
    Answer(RowId(|s.answers|), questionId, lawyerId, content)
  }

  /** Inserting one answer row. */
  function AppendAnswer(s: State, questionId: string, lawyerId: string, content: string): (t: State)
    ensures t.profiles == s.profiles && t.balanceDefault == s.balanceDefault
    ensures t.answers == s.answers + [NextAnswer(s, questionId, lawyerId, content)]
  {
    s.(answers := s.answers + [NextAnswer(s, questionId, lawyerId, content)])
  }

  /**
   * A paid answer: when the gate fails nothing changes; otherwise the stored
   * balance becomes exactly the old one minus the price and one answer is
   * appended, carrying the question id, the caller and the content.
   */
  function PayAnswer(s: State, userId: string, questionId: string, content: string): (t: State)
    ensures AnswerGate(s.profiles, userId).Failure? ==> t == s
    ensures AnswerGate(s.profiles, userId).Success? ==>
      && t.profiles == s.profiles[userId := s.profiles[userId].(balance := Some(Funds(s, userId) - AnswerPrice))]
      && t.answers == s.answers + [Answer(RowId(|s.answers|), questionId, userId, content)]
      && t.balanceDefault == s.balanceDefault
    ensures AnswerGate(s.profiles, userId).Success? ==> NonNegative(t.profiles[userId].balance)
    ensures Keyed(s) ==> Keyed(t)
    ensures Solvent(s) ==> Solvent(t)
  {
    match AnswerGate(s.profiles, userId)
    case Failure(_) => s
    case Success(balance) =>
      AppendAnswer(Patched(s, userId, BalancePatch(balance - AnswerPrice)), questionId, userId, content)
  }

  /** What a paid answer returns: the inserted row, or the gate's error. */
  function PayAnswerResult(s: State, userId: string, questionId: string, content: string): (r: Result<Answer, HttpError>)
    ensures r.Success? <==> AnswerGate(s.profiles, userId).Success?
    ensures r.Failure? ==> r.error == AnswerGate(s.profiles, userId).error
    ensures r.Success? ==> PayAnswer(s, userId, questionId, content).answers == s.answers + [r.value]
    ensures r.Success? ==> r.value.questionId == questionId && r.value.lawyerId == userId && r.value.content == content
  {
    match AnswerGate(s.profiles, userId)
    case Failure(e) => Failure(e)
    case Success(_) => Success(NextAnswer(s, questionId, userId, content))
  }

  // ------------------------------------------------------------ runs

  /** One transition, as an endpoint admitted by its role gate performs it. */
  datatype Step =
    | SubmitStep(userId: string, request: LawyerVerificationRequest)
    | StatusStep(userId: string, update: LawyerStatusUpdate)
    | PayStep(userId: string, questionId: string, content: string)

  /** A status update must satisfy its schema (`reset_balance >= 0`). */
  predicate ValidStep(step: Step)
  {
    step.StatusStep? ==> ValidStatusUpdate(step.update)
  }

  /** A step that does not reset any balance. */
  predicate NoReset(step: Step)
  {
    step.StatusStep? ==> step.update.resetBalance.None?
  }

  function Apply(s: State, step: Step): State
  {
    match step
    case SubmitStep(u, req) => Submit(s, u, req)
    case StatusStep(u, update) => SetStatus(s, u, update)
    case PayStep(u, qid, content) => PayAnswer(s, u, qid, content)
  }

  /** The state after running the steps one after another. */
  function Run(s: State, steps: seq<Step>): State
    decreases |steps|
  {
    if steps == [] then s else Run(Apply(s, steps[0]), steps[1..])
  }

  /** The number of answers written by lawyer `u`. */
  function CountBy(answers: seq<Answer>, u: string): nat
    decreases |answers|
  {
    if answers == [] then 0
    else CountBy(answers[..|answers| - 1], u) + (if answers[|answers| - 1].lawyerId == u then 1 else 0)
  }

  lemma StepKeepsSolvent(s: State, step: Step)
    requires Solvent(s) && ValidStep(step)
    ensures Solvent(Apply(s, step))
  {
  }

  /**
   * Executed one after another, valid transitions never make a balance
   * negative: the paid-answer path deducts only from balances of at least
   * the price, and resets are non-negative.
   */
  lemma {:induction false} RunKeepsSolvent(s: State, steps: seq<Step>)
    requires Solvent(s)
    requires forall i :: 0 <= i < |steps| ==> ValidStep(steps[i])
    ensures Solvent(Run(s, steps))
    decreases |steps|
  {
    if steps != [] {
      StepKeepsSolvent(s, steps[0]);
      assert forall i :: 0 <= i < |steps[1..]| ==> ValidStep(steps[1..][i]) by {
        forall i | 0 <= i < |steps[1..]| ensures ValidStep(steps[1..][i]) {
          assert steps[1..][i] == steps[i + 1];
        }
      }
      RunKeepsSolvent(Apply(s, steps[0]), steps[1..]);
    }
  }

  /** Runs only append to the answer table. */
  lemma {:induction false} RunAppendsAnswers(s: State, steps: seq<Step>)
    ensures s.answers <= Run(s, steps).answers
    ensures Run(s, steps).balanceDefault == s.balanceDefault
    decreases |steps|
  {
    if steps != [] {
      var t := Apply(s, steps[0]);
      assert s.answers <= t.answers;
      RunAppendsAnswers(t, steps[1..]);
    }
  }

  lemma CountByAppend(answers: seq<Answer>, a: Answer, u: string)
    ensures CountBy(answers + [a], u) == CountBy(answers, u) + (if a.lawyerId == u then 1 else 0)
  {
    assert (answers + [a])[..|answers|] == answers;
  }

  /** Per step: the reader's funds plus the price of the answers it appended are unchanged. */
  lemma StepPaysExactly(s: State, step: Step, u: string)
    requires NoReset(step)
    ensures Funds(Apply(s, step), u) + AnswerPrice * (CountBy(Apply(s, step).answers, u) - CountBy(s.answers, u))
            == Funds(s, u)
  {
    match step
    case SubmitStep(v, req) =>
    case StatusStep(v, update) =>
    case PayStep(v, qid, content) =>
      if AnswerGate(s.profiles, v).Success? {
        CountByAppend(s.answers, Answer(RowId(|s.answers|), qid, v, content), u);
      }
  }

  /**
   * Over any run without balance resets, each lawyer's balance goes down by
   * exactly the price of every answer they wrote, and by nothing else.
   */
  lemma {:induction false} RunPaysExactly(s: State, steps: seq<Step>, u: string)
    requires forall i :: 0 <= i < |steps| ==> NoReset(steps[i])
    ensures Funds(Run(s, steps), u) + AnswerPrice * (CountBy(Run(s, steps).answers, u) - CountBy(s.answers, u))
            == Funds(s, u)
    decreases |steps|
  {
    if steps != [] {
      var t := Apply(s, steps[0]);
      StepPaysExactly(s, steps[0], u);
      assert forall i :: 0 <= i < |steps[1..]| ==> NoReset(steps[1..][i]) by {
        forall i | 0 <= i < |steps[1..]| ensures NoReset(steps[1..][i]) {
          assert steps[1..][i] == steps[i + 1];
        }
      }
      RunPaysExactly(t, steps[1..], u);
    }
  }

  /**
   * Submitting twice is like submitting once with the second request: one
   * row per user id, with the same row id, status pending and the balance it
   * had before.
   */
  lemma ResubmissionKeepsOneRow(s: State, userId: string, first: LawyerVerificationRequest, second: LawyerVerificationRequest)
    ensures Submit(Submit(s, userId, first), userId, second).profiles.Keys == s.profiles.Keys + {userId}
    ensures Submit(Submit(s, userId, first), userId, second).profiles[userId]
            == Submit(s, userId, second).profiles[userId]
  {
  }
}
