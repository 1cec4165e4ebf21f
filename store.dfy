/**
 * The client-side purchase store: the fields `purchases`, `loading` and `error`, and the
 * four actions that update them around one remote call each. A remote call is given to an
 * action as its outcome: the value the server returned, or the message of the error thrown.
 */
module Store {
  import opened Common
  import opened Purchases

  /**
   * The update sent when a purchase's status changes. A rejection clears both approvals,
   * whatever approval type is given; otherwise the approval type alone picks the new status
   * and the one approval record stamped `now`; with no approval type only `status` is sent.
   */
  function StatusPatch(status: Status, approvalType: Option<Role>, now: Timestamp): (u: Patch)
    ensures u.status.Present? && u.fileUrl.Absent? && u.fileName.Absent?
    ensures u.status.value == Rejected <==> status == Rejected
    ensures u.directorApproval.Present? <==> status == Rejected || approvalType == Some(Director)
    ensures u.financeApproval.Present? <==> status == Rejected || approvalType == Some(Finance)
    ensures status != Rejected && approvalType == Some(Director) ==>
              u.status.value == DirectorApproved && u.directorApproval.value == Some(Approval(true, now))
    ensures status != Rejected && approvalType == Some(Finance) ==>
              u.status.value == FinanceApproved && u.financeApproval.value == Some(Approval(true, now))
    ensures status != Rejected && approvalType == None ==> u.status.value == status
    ensures status == Rejected ==> u.directorApproval.value == None && u.financeApproval.value == None
  {
    var updateData := Patch(Present(status), Absent, Absent, Absent, Absent);
    if status == Rejected then
      Patch(Present(Rejected), Present(None), Present(None), Absent, Absent)
    else if approvalType == Some(Director) then
      Patch(Present(DirectorApproved), Present(Some(Approval(true, now))), Absent, Absent, Absent)
    else if approvalType == Some(Finance) then
      Patch(Present(FinanceApproved), Absent, Present(Some(Approval(true, now))), Absent, Absent)
    else
      updateData
  }

  /** The update sent when a bill is uploaded again: the two file fields and nothing else. */
  function FilePatch(fileUrl: string, fileName: string): (u: Patch)
    ensures u.status.Absent? && u.directorApproval.Absent? && u.financeApproval.Absent?
    ensures u.fileUrl == Present(fileUrl) && u.fileName == Present(fileName)
  {
    Patch(Absent, Absent, Absent, Present(fileUrl), Present(fileName))
  }

  /** `purchases.map(p => p._id === id ? updated : p)`. */
  function ReplaceById(ps: seq<Purchase>, id: string, updated: Purchase): (r: seq<Purchase>)
    ensures |r| == |ps|
    ensures forall i :: 0 <= i < |ps| && ps[i].id == id ==> r[i] == updated
    ensures forall i :: 0 <= i < |ps| && ps[i].id != id ==> r[i] == ps[i]
    ensures (forall i :: 0 <= i < |ps| ==> ps[i].id != id) ==> r == ps
  {
    if ps == [] then []
    else [if ps[0].id == id then updated else ps[0]] + ReplaceById(ps[1..], id, updated)
  }

  // ----- Properties of the updates, read through the effect they have on a stored record -----

  /** A rejection yields status `rejected` and no approvals, whatever was there before. */
  lemma RejectionClearsApprovals(p: Purchase, approvalType: Option<Role>, now: Timestamp)
    ensures var r := Apply(p, StatusPatch(Rejected, approvalType, now));
      r.status == Rejected && r.directorApproval == None && r.financeApproval == None
  {
  }

  /**
   * What a status update does to the record it is applied to: only the status and the
   * approvals it names change; the file fields and every other field are kept.
   */
  lemma StatusPatchEffect(p: Purchase, status: Status, approvalType: Option<Role>, now: Timestamp)
    ensures var r := Apply(p, StatusPatch(status, approvalType, now));
      && r.fileUrl == p.fileUrl && r.fileName == p.fileName
      && r.id == p.id && r.amount == p.amount && r.createdAt == p.createdAt
      && (status == Rejected ==>
            r.status == Rejected && r.directorApproval == None && r.financeApproval == None)
      && (status != Rejected && approvalType == Some(Director) ==>
            && r.status == DirectorApproved
            && r.directorApproval == Some(Approval(true, now))
            && r.financeApproval == p.financeApproval)
      && (status != Rejected && approvalType == Some(Finance) ==>
            && r.status == FinanceApproved
            && r.financeApproval == Some(Approval(true, now))
            && r.directorApproval == p.directorApproval)
      && (status != Rejected && approvalType == None ==> r == p.(status := status))
  {
  }

  /** With an approval type given, the status asked for is ignored unless it is `rejected`. */
  lemma ApprovalIgnoresRequestedStatus(s1: Status, s2: Status, t: Role, now: Timestamp)
    requires s1 != Rejected && s2 != Rejected
    ensures StatusPatch(s1, Some(t), now) == StatusPatch(s2, Some(t), now)
  {
  }

  /**
   * No transition guard: a finance approval is produced from any prior status, amount or
   * director approval, including a record that is already rejected or finance-approved.
   */
  lemma FinanceApprovalUnguarded(p: Purchase, status: Status, now: Timestamp)
    requires status != Rejected
    ensures Apply(p, StatusPatch(status, Some(Finance), now)).status == FinanceApproved
  {
  }

  /** A reupload never changes status or approvals, only the two file fields. */
  lemma ReuploadKeepsApprovals(p: Purchase, fileUrl: string, fileName: string)
    ensures Apply(p, FilePatch(fileUrl, fileName))
         == p.(fileUrl := fileUrl, fileName := fileName)
  {
  }

  // ----- Properties of replacing by id -----

  /** Replacing by id twice with the same record gives the list replacing once gives. */
  lemma ReplaceByIdIdempotent(ps: seq<Purchase>, id: string, updated: Purchase)
    ensures ReplaceById(ReplaceById(ps, id, updated), id, updated) == ReplaceById(ps, id, updated)
  {
  }

  /** Entries with other ids keep their positions and values: ids of untouched entries survive. */
  lemma ReplaceByIdKeepsIds(ps: seq<Purchase>, id: string, updated: Purchase)
    requires updated.id == id
    ensures var r := ReplaceById(ps, id, updated);
      forall i :: 0 <= i < |ps| ==> r[i].id == ps[i].id
  {
  }

  /** The purchase store of `store.ts`; each action runs as one sequential step. */
  class PurchaseStore {
    var purchases: seq<Purchase>
    var loading: bool
    var error: Option<string>

    constructor ()
      ensures purchases == [] && !loading && error == None
    {
      purchases := [];
      loading := false;
      error := None;
    }

    /** Loads the whole list; a failure is recorded but not raised. */
    method FetchPurchases(response: ApiOutcome<seq<Purchase>>)
      modifies this
      ensures !loading
      ensures response.Ok? ==> purchases == response.value && error == None
      ensures response.Fail? ==> purchases == old(purchases) && error == Some(response.message)
    {
      loading, error := true, None;
      match response {
        case Ok(fetched) =>
          purchases, loading := fetched, false;
        case Fail(message) =>
          error, loading := Some(message), false;
      }
    }

    /** Puts the created purchase in front of the list; a failure is recorded and raised again. */
    method AddPurchase(response: ApiOutcome<Purchase>) returns (thrown: Option<string>)
      modifies this
      ensures !loading
      ensures response.Ok? ==>
                purchases == [response.value] + old(purchases) && error == None && thrown == None
      ensures response.Fail? ==>
                && purchases == old(purchases)
                && error == Some(response.message) && thrown == Some(response.message)
    {
      loading, error := true, None;
      match response {
        case Ok(newPurchase) =>
          purchases, loading := [newPurchase] + purchases, false;
          thrown := None;
        case Fail(message) =>
          error, loading := Some(message), false;
          thrown := Some(message);
      }
    }

    /**
     * Sends the status update for `id` and puts the server's record in place of every entry
     * with that id; `sent` is the update sent, `response` the server's answer to it.
     */
    method UpdatePurchaseStatus(id: string, status: Status, approvalType: Option<Role>,
                                now: Timestamp, response: ApiOutcome<Purchase>)
      returns (sent: Patch, thrown: Option<string>)
      modifies this
      ensures sent == StatusPatch(status, approvalType, now)
      ensures !loading
      ensures response.Ok? ==>
                && purchases == ReplaceById(old(purchases), id, response.value)
                && error == None && thrown == None
      ensures response.Fail? ==>
                && purchases == old(purchases)
                && error == Some(response.message) && thrown == Some(response.message)
    {
      loading, error := true, None;
      sent := StatusPatch(status, approvalType, now);
      match response {
        case Ok(updatedPurchase) =>
          purchases, loading := ReplaceById(purchases, id, updatedPurchase), false;
          thrown := None;
        case Fail(message) =>
          error, loading := Some(message), false;
          thrown := Some(message);
      }
    }

    /** Sends the new file fields for `id` and replaces its entries like a status update. */
    method ReuploadBill(id: string, fileUrl: string, fileName: string,
                        response: ApiOutcome<Purchase>)
      returns (sent: Patch, thrown: Option<string>)
      modifies this
      ensures sent == FilePatch(fileUrl, fileName)
      ensures !loading
      ensures response.Ok? ==>
                && purchases == ReplaceById(old(purchases), id, response.value)
                && error == None && thrown == None
      ensures response.Fail? ==>
                && purchases == old(purchases)
                && error == Some(response.message) && thrown == Some(response.message)
    {
      loading, error := true, None;
      sent := FilePatch(fileUrl, fileName);
      match response {
        case Ok(updatedPurchase) =>
          purchases, loading := ReplaceById(purchases, id, updatedPurchase), false;
          thrown := None;
        case Fail(message) =>
          error, loading := Some(message), false;
          thrown := Some(message);
      }
    }
  }
}
