/** The purchase record of `types.ts`, and the partial updates the client sends for it. */
module Purchases {
  import opened Common

  datatype Purpose = Procurement | Salary | Repair | SmallPurchase
  datatype Status = Pending | DirectorApproved | FinanceApproved | Rejected
  datatype PaymentSequence = PaymentFirst | BillFirst | PaymentWithoutBill
  datatype BillType = Quantum | Covalent
  datatype Hub = Mumbai | Delhi | Bangalore | Pune

  /** An approval record `{ approved, date }`. */
  datatype Approval = Approval(approved: bool, date: Timestamp)

  /** One purchase request; `amount` is a JavaScript number, kept here as a real. */
  datatype Purchase = Purchase(
    id: string,
    uploaderName: string,
    vendorName: string,
    purpose: Purpose,
    amount: real,
    fileUrl: string,
    fileName: string,
    status: Status,
    createdAt: Timestamp,
    paymentDate: Timestamp,
    paymentSequence: PaymentSequence,
    billType: BillType,
    hub: Hub,
    directorApproval: Option<Approval>,
    financeApproval: Option<Approval>)

  /** A key of a `Partial<...>` object: left out, or present with a value (which may be null). */
  datatype Field<+T> = Absent | Present(value: T)

  /** The part of `Partial<Purchase>` that the store ever sends: status, approvals, file fields. */
  datatype Patch = Patch(
    status: Field<Status>,
    directorApproval: Field<Option<Approval>>,
    financeApproval: Field<Option<Approval>>,
    fileUrl: Field<string>,
    fileName: Field<string>)

  function Pick<T>(f: Field<T>, old_: T): T
  {
    match f
    case Absent => old_
    case Present(v) => v
  }

  /** The effect of a patch on a stored record: present keys overwrite, absent keys are kept. */
  function Apply(p: Purchase, u: Patch): Purchase
  {
    p.(status := Pick(u.status, p.status),
       directorApproval := Pick(u.directorApproval, p.directorApproval),
       financeApproval := Pick(u.financeApproval, p.financeApproval),
       fileUrl := Pick(u.fileUrl, p.fileUrl),
       fileName := Pick(u.fileName, p.fileName))
  }
}
