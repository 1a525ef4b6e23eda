/**
 * The entities of `src/types/index.ts` that the pages filter, restricted to
 * the fields the filtering, statistics and role logic read.
 */
module Model {
  import opened Wrappers

  /** A date string as the records hold it: empty, not parseable by `new Date`,
      or an instant in milliseconds since the epoch. */
  datatype DateText = Blank | Garbled | At(ms: int)

  /** `new Date(text).getTime()`; None stands for Invalid Date (NaN), which the
      empty string also produces. */
  function Parse(d: DateText): (t: Option<int>)
    ensures t.Some? <==> d.At?
    ensures t.Some? ==> t.value == d.ms
  {
    match d
    case At(ms) => Some(ms)
    case _ => None
  }

  datatype TenantStatus = Active | Inactive | Suspended | PendingApproval

  datatype JobStatus =
    | Pending | Approved | Rejected | Assigned | InProgress
    | CompletedByTl | CompletedApproved | CompletionRejected

  datatype EquipmentStatus = Available | InUse | Maintenance | OutOfService

  /** `Member.position`. */
  datatype Position = Worker | TeamLeader

  datatype Tenant = Tenant(
    id: string,
    name: string,
    code: string,
    city: string,
    province: string,
    status: TenantStatus,
    totalMembers: int,
    totalEquipment: int,
    createdAt: DateText,
    updatedAt: DateText)

  datatype Pbm = Pbm(
    id: string,
    name: string,
    email: string,
    picName: string,
    isActive: bool,
    tenant: Tenant,
    createdAt: DateText)

  datatype JobRequest = JobRequest(
    id: string,
    jobCode: Option<string>,
    tenant: Tenant,
    pbm: Pbm,
    jobType: string,
    shipName: string,
    portLocation: string,
    status: JobStatus,
    createdAt: DateText,
    updatedAt: DateText)

  datatype Member = Member(
    id: string,
    fullname: string,
    email: string,
    memberNumber: string,
    joinDate: DateText,
    position: Position,
    isActive: bool,
    tenant: Tenant)

  datatype EquipmentCategory = EquipmentCategory(id: string, name: string, slug: string, isActive: bool)

  datatype EquipmentImage = EquipmentImage(id: string, isDefault: bool, uploadedAt: DateText)

  datatype EquipmentUnit = EquipmentUnit(
    id: string,
    category: EquipmentCategory,
    name: string,
    inventoryNumber: string,
    brand: string,
    model: string,
    status: EquipmentStatus,
    isActive: bool,
    tenant: Tenant,
    images: Option<seq<EquipmentImage>>)

  datatype Role = Role(id: string, name: string, alias: string)

  datatype User = User(
    id: string,
    username: string,
    email: string,
    fullname: string,
    roles: seq<Role>,
    tenant: Option<Tenant>,
    accessToken: Option<string>,
    refreshToken: Option<string>)
}
