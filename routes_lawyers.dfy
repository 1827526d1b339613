/** The lawyer endpoint: submitting verification details. */
module LawyerRoutes {
  import opened Wrappers
  import opened Json
  import opened Http
  import opened Schemas
  import opened Security
  import opened Ledger
  import opened Supabase

  /**
   * `submit_verification`: for an admitted lawyer, upserts the caller's own
   * profile with the submitted name and document URL and status pending;
   * the balance is not written.
   */
  method SubmitVerification(store: Store, caller: Result<AuthenticatedUser, HttpError>, payload: LawyerVerificationRequest)
    returns (r: Result<LawyerProfileResponse, HttpError>)
    requires store.Valid()
    modifies store
    ensures store.Valid()
    ensures store.questions == old(store.questions) && store.documents == old(store.documents)
    ensures RequireRole({Lawyer}, caller).Failure? ==>
              r == Failure(RequireRole({Lawyer}, caller).error) && store.Ledger() == old(store.Ledger())
    ensures RequireRole({Lawyer}, caller).Success? ==>
              var user := caller.value;
              && store.Ledger() == Submit(old(store.Ledger()), user.id, payload)
              && store.profiles[user.id].status == Pending
              && store.profiles[user.id].balance ==
                   (if user.id in old(store.profiles) then old(store.profiles)[user.id].balance else store.balanceDefault)
              && (r.Success? <==> store.profiles[user.id].balance.Some?)
              && (r.Success? ==>
                    && r.value.verificationStatus == Pending && r.value.userId == user.id
                    && r.value.name == payload.name
                    && r.value.verificationDocumentUrl == Some(payload.verificationDocumentUrl))
    ensures Solvent(old(store.Ledger())) ==> Solvent(store.Ledger())
  {
    var admitted := RequireRole({Lawyer}, caller);
    if admitted.Failure? {
      r := Failure(admitted.error);
      return;
    }
    var user := admitted.value;
    var profile := store.UpsertLawyerProfile(user.id, SubmissionPayload(payload));
    r := ProfileResponse(profile.id, profile.userId, profile.name, profile.status,
                         profile.documentUrl, profile.balance);
  }
}
