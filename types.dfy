/** The records of the batch tracker (src/types/batch.ts) and the user roles
    of the authentication context (src/contexts/AuthContext.tsx). */
module Types {

  datatype Option<+T> = None | Some(value: T)

  /** `UserRole`. */
  datatype Role = Manufacturer | Wholesaler | Distributor | Retailer | Consumer

  /** The string literal each role is in the source. */
  function RoleName(r: Role): string
  {
    match r
    case Manufacturer => "manufacturer"
    case Wholesaler => "wholesaler"
    case Distributor => "distributor"
    case Retailer => "retailer"
    case Consumer => "consumer"
  }

  datatype Status = Registered | InTransit | Delivered | Flagged

  /** A role's attestation that it handled a batch. `isVerified` is always
      true: nothing is checked cryptographically. */
  datatype Signature = Signature(
    role: Role,
    timestamp: string,
    organizationName: string,
    userName: string,
    isVerified: bool)

  datatype Batch = Batch(
    id: string,
    medicineName: string,
    manufacturingDate: string,
    expiryDate: string,
    quantity: int,
    manufacturerName: string,
    createdAt: string,
    signatures: seq<Signature>,
    status: Status)

  /** What a caller supplies to register a batch:
      `Omit<Batch, 'id' | 'createdAt' | 'signatures' | 'status'>`. */
  datatype BatchData = BatchData(
    medicineName: string,
    manufacturingDate: string,
    expiryDate: string,
    quantity: int,
    manufacturerName: string)

  /** The descriptive fields of a batch, those set once at creation. */
  function DataOf(b: Batch): BatchData
  {
    BatchData(b.medicineName, b.manufacturingDate, b.expiryDate, b.quantity, b.manufacturerName)
  }

  datatype Notification = Notification(
    id: string,
    message: string,
    timestamp: string,
    read: bool,
    batchId: Option<string>)

  /** The signed-in user the authentication context supplies. */
  datatype User = User(id: string, username: string, role: Role, name: string, organization: Option<string>)

  /** `batch.signatures.some(sig => sig.role === role)`. */
  predicate HasSigned(b: Batch, role: Role)
  {
    exists s :: s in b.signatures && s.role == role
  }

  const UnknownOrganization: string := "Unknown Organization"

  /** `organization || 'Unknown Organization'`: a missing or empty
      organization (the empty string is falsy) falls back to the default. */
  function OrganizationOrDefault(organization: Option<string>): (r: string)
    ensures r != ""
    ensures organization.Some? && organization.value != "" ==> r == organization.value
    ensures organization.None? || organization.value == "" ==> r == UnknownOrganization
  {
    if organization.Some? && organization.value != "" then organization.value else UnknownOrganization
  }

  /** The supply chain in the order custody passes along it, as all three
      visibility filters of the source write it. */
  const RoleOrder: seq<Role> := [Manufacturer, Wholesaler, Distributor, Retailer, Consumer]

  /** `roleOrder.indexOf(role)`; every role occurs, so it is never -1. */
  function IndexOf(r: Role): (i: nat)
    ensures i < |RoleOrder| && RoleOrder[i] == r
    ensures forall j :: 0 <= j < |RoleOrder| && RoleOrder[j] == r ==> j == i
  {
    match r
    case Manufacturer => 0
    case Wholesaler => 1
    case Distributor => 2
    case Retailer => 3
    case Consumer => 4
  }

  /** The role that hands a batch on to `r`, written out case by case. */
  function Predecessor(r: Role): Option<Role>
  {
    match r
    case Manufacturer => None
    case Wholesaler => Some(Manufacturer)
    case Distributor => Some(Wholesaler)
    case Retailer => Some(Distributor)
    case Consumer => Some(Retailer)
  }

  /** A batch waits for `r` when `r`'s predecessor has signed it and `r` has not. */
  predicate AwaitsRole(b: Batch, r: Role)
  {
    Predecessor(r).Some? && HasSigned(b, Predecessor(r).value) && !HasSigned(b, r)
  }

  /** `batch => batch.manufacturerName === name`. */
  function MadeBy(name: string): Batch -> bool
  {
    (b: Batch) => b.manufacturerName == name
  }

  /** `AwaitsRole` as a predicate value, for filtering and counting. */
  function Awaiting(r: Role): Batch -> bool
  {
    (b: Batch) => AwaitsRole(b, r)
  }
}
