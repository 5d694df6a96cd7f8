/** The `rejected_ngos` table: applications an administrator turned down,
    with who rejected them, when, and why. */
module RejectedNgos {
  import opened Common

  datatype RejectedNgo = RejectedNgo(
    name: string,
    ngoType: string,
    mission: string,
    email: string,
    regDocPath: string,
    financialPath: Option<string>,
    dateRejected: nat,
    rejectedBy: Option<nat>,
    reason: Option<string>)
}
