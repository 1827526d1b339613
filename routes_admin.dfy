/** The admin endpoints: registering a document and setting a lawyer's status. */
module AdminRoutes {
  import opened Wrappers
  import opened Json
  import opened Http
  import opened Schemas
  import opened Security
  import opened Ledger
  import opened Supabase

  /**
   * `create_document`: for an admitted admin, stores every field of the
   * payload unchanged plus `uploaded_by` set to the admin's id.
   */
  method CreateDocument(store: Store, caller: Result<AuthenticatedUser, HttpError>, payload: DocumentCreate)
    returns (r: Result<DocumentResponse, HttpError>)
    requires ValidDocumentCreate(payload)
    modifies store
    ensures store.Ledger() == old(store.Ledger()) && store.questions == old(store.questions)
    ensures RequireRole({Admin}, caller).Failure? ==>
              r == Failure(RequireRole({Admin}, caller).error) && store.documents == old(store.documents)
    ensures RequireRole({Admin}, caller).Success? ==>
              var admin := caller.value;
              var id := RowId(|old(store.documents)|);
              && store.documents == old(store.documents) + [DocumentDump(payload)["uploaded_by" := JStr(admin.id)]["id" := JStr(id)]]
              && r == Success(DocumentResponse(payload, id, admin.id))
  {
    var admitted := RequireRole({Admin}, caller);
    if admitted.Failure? {
      r := Failure(admitted.error);
      return;
    }
    var admin := admitted.value;
    var document := store.CreateDocument(DocumentDump(payload)["uploaded_by" := JStr(admin.id)]);
    DocumentRoundTrip(payload, admin.id, RowId(|store.documents| - 1));
    r := DocumentResponseFrom(document);
  }

  /**
   * `update_lawyer_status`: for an admitted admin, sets the target's status
   * to exactly the requested one and, when a reset is given, the balance to
   * it; an unknown user id is a 404 and changes nothing.
   */
  method UpdateLawyerStatus(store: Store, caller: Result<AuthenticatedUser, HttpError>, userId: string, payload: LawyerStatusUpdate)
    returns (r: Result<LawyerProfileResponse, HttpError>)
    requires store.Valid() && ValidStatusUpdate(payload)
    modifies store
    ensures store.Valid()
    ensures store.questions == old(store.questions) && store.documents == old(store.documents)
    ensures RequireRole({Admin}, caller).Failure? ==>
              r == Failure(RequireRole({Admin}, caller).error) && store.Ledger() == old(store.Ledger())
    ensures RequireRole({Admin}, caller).Success? ==>
              && store.Ledger() == SetStatus(old(store.Ledger()), userId, payload)
              && (userId !in old(store.profiles) ==> r == Failure(HttpError(NotFound, JStr("Lawyer profile not found"))))
              && (userId in old(store.profiles) ==> (r.Success? <==> store.profiles[userId].balance.Some?))
              && (r.Success? ==> r.value.balance == store.profiles[userId].balance.value)
              && (r.Success? ==>
                    && r.value.verificationStatus == payload.status && r.value.userId == userId
                    && (payload.resetBalance.Some? ==> r.value.balance == payload.resetBalance.value))
    ensures Solvent(old(store.Ledger())) ==> Solvent(store.Ledger())
  {
    var admitted := RequireRole({Admin}, caller);
    if admitted.Failure? {
      r := Failure(admitted.error);
      return;
    }
    var updated := store.UpdateLawyerStatus(userId, payload.status, payload.resetBalance);
    match updated
    case Failure(e) =>
      r := Failure(e);
    case Success(profile) =>
      r := ProfileResponse(profile.id, profile.userId, profile.name, profile.status,
                           profile.documentUrl, profile.balance);
  }
}
