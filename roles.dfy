/**
 * The role and permission table: nine roles, each with a label, a tier and
 * 25 permission flags, and the lookups the rest of the application asks
 * (does a role hold a permission, which roles hold it, which tier is a
 * role in). Roles are the values of the database's `user_role` enum.
 */
module Roles {
  import opened Options

  datatype Role =
    Owner
    | BusinessOwner
    | Finance
    | Staff
    | StaffNoMaterial
    | StaffNoPricing
    | StaffNoPricingNoAttachments
    | Contractor
    | StrictContractor

  /** Every role, in the order the enum declares them. */
  const USER_ROLES: seq<Role> := [Owner, BusinessOwner, Finance, Staff, StaffNoMaterial, StaffNoPricing, StaffNoPricingNoAttachments, Contractor, StrictContractor]

  /** The enum value a role is stored as: lower-case words joined by `_`. */
  function RoleKey(r: Role): (k: string)
    ensures k != [] && forall i :: 0 <= i < |k| ==> 'a' <= k[i] <= 'z' || k[i] == '_'
  {
    match r
    case Owner => "owner"
    case BusinessOwner => "business_owner"
    case Finance => "finance"
    case Staff => "staff"
    case StaffNoMaterial => "staff_no_material"
    case StaffNoPricing => "staff_no_pricing"
    case StaffNoPricingNoAttachments => "staff_no_pricing_no_attachments"
    case Contractor => "contractor"
    case StrictContractor => "strict_contractor"
  }

  /** The role a stored enum value names, if any. */
  function ParseRole(key: string): (r: Option<Role>)
    ensures r.Some? ==> RoleKey(r.value) == key
  {
    if key == "owner" then Some(Owner)
    else if key == "business_owner" then Some(BusinessOwner)
    else if key == "finance" then Some(Finance)
    else if key == "staff" then Some(Staff)
    else if key == "staff_no_material" then Some(StaffNoMaterial)
    else if key == "staff_no_pricing" then Some(StaffNoPricing)
    else if key == "staff_no_pricing_no_attachments" then Some(StaffNoPricingNoAttachments)
    else if key == "contractor" then Some(Contractor)
    else if key == "strict_contractor" then Some(StrictContractor)
    else None
  }

  datatype Permission =
    ViewAllJobs
    | ViewOwnJobs
    | CreateJobs
    | EditJobs
    | DeleteJobs
    | ViewAllClients
    | ViewOwnClients
    | CreateClients
    | EditClients
    | ViewQuotes
    | CreateQuotes
    | ViewInvoices
    | CreateInvoices
    | ViewSalePricing
    | ViewJobProfitability
    | ViewFinancialPdfs
    | CreateItems
    | ApplyExistingItems
    | ViewAttachments
    | ViewStaffList
    | ManageStaff
    | ViewReporting
    | ViewSettings
    | ManageSettings
    | ManageSubscription

  /**
   * A role's 25 flags, given as the set of permissions whose flag is true;
   * a permission left out of the set has its flag false.
   */
  type RolePermissions = set<Permission>

  datatype Tier = OwnerTier | ManagementTier | StaffTier | ContractorTier

  datatype RoleDefinition = RoleDefinition(key: Role, labelText: string, tier: Tier, permissions: RolePermissions)

  /** Every flag true. */
  const ALL_TRUE: RolePermissions := {
    ViewAllJobs, ViewOwnJobs, CreateJobs, EditJobs, DeleteJobs, ViewAllClients, ViewOwnClients,
    CreateClients, EditClients, ViewQuotes, CreateQuotes, ViewInvoices, CreateInvoices,
    ViewSalePricing, ViewJobProfitability, ViewFinancialPdfs, CreateItems, ApplyExistingItems,
    ViewAttachments, ViewStaffList, ManageStaff, ViewReporting, ViewSettings, ManageSettings,
    ManageSubscription}

  const OWNER_PERMISSIONS: RolePermissions := ALL_TRUE

  const BUSINESS_OWNER_PERMISSIONS: RolePermissions := ALL_TRUE - {ManageSubscription}

  const FINANCE_PERMISSIONS: RolePermissions := {
    ViewAllJobs, ViewOwnJobs, ViewAllClients, ViewOwnClients, ViewQuotes, ViewInvoices,
    ViewSalePricing, ViewJobProfitability, ViewFinancialPdfs, ViewAttachments, ViewStaffList}

  const STAFF_PERMISSIONS: RolePermissions := {
    ViewAllJobs, ViewOwnJobs, CreateJobs, EditJobs, ViewAllClients, ViewOwnClients, CreateClients,
    EditClients, ViewQuotes, CreateQuotes, ViewInvoices, CreateInvoices, ViewSalePricing,
    ViewFinancialPdfs, CreateItems, ApplyExistingItems, ViewAttachments, ViewStaffList}

  const STAFF_NO_MATERIAL_PERMISSIONS: RolePermissions := {
    ViewAllJobs, ViewOwnJobs, CreateJobs, EditJobs, ViewAllClients, ViewOwnClients, CreateClients,
    EditClients, ViewQuotes, CreateQuotes, ViewInvoices, CreateInvoices, ViewSalePricing,
    ViewFinancialPdfs, ApplyExistingItems, ViewAttachments, ViewStaffList}

  const STAFF_NO_PRICING_PERMISSIONS: RolePermissions := {
    ViewAllJobs, ViewOwnJobs, CreateJobs, EditJobs, ViewAllClients, ViewOwnClients, CreateClients,
    EditClients, CreateItems, ApplyExistingItems, ViewAttachments, ViewStaffList}

  const STAFF_NO_PRICING_NO_ATTACHMENTS_PERMISSIONS: RolePermissions := {
    ViewAllJobs, ViewOwnJobs, CreateJobs, EditJobs, ViewAllClients, ViewOwnClients, CreateClients,
    EditClients, CreateItems, ApplyExistingItems, ViewStaffList}

  const CONTRACTOR_PERMISSIONS: RolePermissions := {
    ViewOwnJobs, ViewOwnClients, ViewQuotes, CreateQuotes, ViewInvoices, CreateInvoices,
    ViewSalePricing, ViewFinancialPdfs, ApplyExistingItems, ViewAttachments}

  const STRICT_CONTRACTOR_PERMISSIONS: RolePermissions := {
    ViewOwnJobs, ViewOwnClients, ViewAttachments}

  /** The permission flags of a role: everyone sees their own jobs, and only the owner manages the subscription. */
  function PermissionsOf(r: Role): (ps: RolePermissions)
    ensures ViewOwnJobs in ps
    ensures ManageSubscription in ps <==> r == Owner
  {
    match r
    case Owner => OWNER_PERMISSIONS
    case BusinessOwner => BUSINESS_OWNER_PERMISSIONS
    case Finance => FINANCE_PERMISSIONS
    case Staff => STAFF_PERMISSIONS
    case StaffNoMaterial => STAFF_NO_MATERIAL_PERMISSIONS
    case StaffNoPricing => STAFF_NO_PRICING_PERMISSIONS
    case StaffNoPricingNoAttachments => STAFF_NO_PRICING_NO_ATTACHMENTS_PERMISSIONS
    case Contractor => CONTRACTOR_PERMISSIONS
    case StrictContractor => STRICT_CONTRACTOR_PERMISSIONS
  }

  /** The dropdown label of a role: capitalised text. */
  function LabelOf(r: Role): (l: string)
    ensures l != [] && 'A' <= l[0] <= 'Z'
  {
    match r
    case Owner => "Owner"
    case BusinessOwner => "Business Owner"
    case Finance => "Finance"
    case Staff => "Staff"
    case StaffNoMaterial => "Staff (No Material Creation)"
    case StaffNoPricing => "Staff (No Pricing)"
    case StaffNoPricingNoAttachments => "Staff (No Pricing, No Attachments)"
    case Contractor => "Contractor"
    case StrictContractor => "Strict Contractor"
  }

  /** The tier a role belongs to; finance alone is the management tier, and only contractors miss `viewAllJobs`. */
  function TierOf(r: Role): (t: Tier)
    ensures t == ManagementTier <==> r == Finance
  {
    match r
    case Owner | BusinessOwner => OwnerTier
    case Finance => ManagementTier
    case Staff | StaffNoMaterial | StaffNoPricing | StaffNoPricingNoAttachments => StaffTier
    case Contractor | StrictContractor => ContractorTier
  }

  /** `ROLE_DEFINITIONS[r]`: each role's entry is keyed by the role itself. */
  function Definition(r: Role): (d: RoleDefinition)
    ensures d.key == r
  {
    RoleDefinition(r, LabelOf(r), TierOf(r), PermissionsOf(r))
  }

  /** Each role is stored as its own enum value and reads back as itself. */
  lemma KeyRoundTrip(r: Role)
    ensures ParseRole(RoleKey(r)) == Some(r)
  {
  }

  /** The position of a role in `USER_ROLES`. */
  function RoleIndex(r: Role): (i: nat)
    ensures i < |USER_ROLES| && USER_ROLES[i] == r
  {
    match r
    case Owner => 0
    case BusinessOwner => 1
    case Finance => 2
    case Staff => 3
    case StaffNoMaterial => 4
    case StaffNoPricing => 5
    case StaffNoPricingNoAttachments => 6
    case Contractor => 7
    case StrictContractor => 8
  }

  /** `USER_ROLES` lists every role exactly once. */
  lemma AllRolesListed()
    ensures |USER_ROLES| == 9
    ensures forall r :: r in USER_ROLES
    ensures forall i, j :: 0 <= i < j < |USER_ROLES| ==> USER_ROLES[i] != USER_ROLES[j]
  {
    forall r ensures r in USER_ROLES {
      assert USER_ROLES[RoleIndex(r)] == r;
    }
    forall i, j | 0 <= i < j < |USER_ROLES| ensures USER_ROLES[i] != USER_ROLES[j] {
      assert RoleIndex(USER_ROLES[i]) == i && RoleIndex(USER_ROLES[j]) == j;
    }
  }

  // ── Lookups ────────────────────────────────────────────────

  /**
   * `hasPermission(role, permission)`: the flag in the role's definition.
   * Every role has a definition, so the `?? false` fallback never applies.
   */
  function HasPermission(r: Role, p: Permission): (b: bool)
    ensures b <==> p in Definition(r).permissions
  {
    p in PermissionsOf(r)
  }

  /** The roles of `roles` holding `p`, in the order of `roles`. */
  function FilterRoles(roles: seq<Role>, p: Permission): (rs: seq<Role>)
    ensures forall r :: r in rs <==> r in roles && HasPermission(r, p)
    ensures Ascending(roles) ==> Ascending(rs)
  {
    if roles == [] then []
    else
      var rest := FilterRoles(roles[1..], p);
      assert forall r :: r in roles <==> r == roles[0] || r in roles[1..];
      if HasPermission(roles[0], p) then
        assert Ascending(roles) ==> Ascending([roles[0]] + rest) by {
          if Ascending(roles) {
            AscendingCons(roles[0], roles[1..], rest);
            assert roles == [roles[0]] + roles[1..];
          }
        }
        [roles[0]] + rest
      else rest
  }

  /** Prepending to an ascending selection of `tail` the role an ascending `[first] + tail` starts with keeps it ascending. */
  lemma AscendingCons(first: Role, tail: seq<Role>, rest: seq<Role>)
    requires Ascending([first] + tail) && Ascending(rest)
    requires forall r :: r in rest ==> r in tail
    ensures Ascending([first] + rest)
  {
    var xs := [first] + tail;
    forall k | 0 <= k < |rest| ensures RoleIndex(first) < RoleIndex(rest[k]) {
      assert rest[k] in tail;
      var m :| 0 <= m < |tail| && tail[m] == rest[k];
      assert xs[0] == first && xs[m + 1] == rest[k];
      assert RoleIndex(xs[0]) < RoleIndex(xs[m + 1]);
    }
    var ys := [first] + rest;
    forall i, j | 0 <= i < j < |ys| ensures RoleIndex(ys[i]) < RoleIndex(ys[j]) {
      assert ys[j] == rest[j - 1];
      if i > 0 {
        assert ys[i] == rest[i - 1];
      }
    }
  }

  /** Strictly increasing in `USER_ROLES` order, hence without repeats. */
  predicate Ascending(roles: seq<Role>)
  {
    forall i, j :: 0 <= i < j < |roles| ==> RoleIndex(roles[i]) < RoleIndex(roles[j])
  }

  /**
   * `rolesWithPermission(p)`: exactly the roles holding `p`, each once, in
   * `USER_ROLES` order.
   */
  function RolesWithPermission(p: Permission): (rs: seq<Role>)
    ensures forall r :: r in rs <==> HasPermission(r, p)
    ensures Ascending(rs)
  {
    AllRolesListed();
    assert Ascending(USER_ROLES) by {
      forall i, j | 0 <= i < j < |USER_ROLES| ensures RoleIndex(USER_ROLES[i]) < RoleIndex(USER_ROLES[j]) {
        assert RoleIndex(USER_ROLES[i]) == i by { assert USER_ROLES[RoleIndex(USER_ROLES[i])] == USER_ROLES[i]; }
        assert RoleIndex(USER_ROLES[j]) == j by { assert USER_ROLES[RoleIndex(USER_ROLES[j])] == USER_ROLES[j]; }
      }
    }
    FilterRoles(USER_ROLES, p)
  }

  /** `USER_ROLE_LABELS`: the dropdown label of every role. */
  function RoleLabels(): (labels: map<Role, string>)
    ensures forall r :: r in labels && labels[r] == LabelOf(r)
  {
    AllRolesListed();
    map r | r in USER_ROLES :: LabelOf(r)
  }

  /** No two roles share a label, so a dropdown choice names one role. */
  lemma LabelsDistinct(r1: Role, r2: Role)
    requires RoleLabels()[r1] == RoleLabels()[r2]
    ensures r1 == r2
  {
  }

  /** `isOwnerTier`: the owner and the business owner. */
  function IsOwnerTier(r: Role): (b: bool)
    ensures b <==> r == Owner || r == BusinessOwner
  {
    TierOf(r) == OwnerTier
  }

  /** `isStaffTier`: standard staff and its three variants. */
  function IsStaffTier(r: Role): (b: bool)
    ensures b <==> r == Staff || r == StaffNoMaterial || r == StaffNoPricing || r == StaffNoPricingNoAttachments
  {
    TierOf(r) == StaffTier
  }

  /** `isContractorTier`: both kinds of contractor. */
  function IsContractorTier(r: Role): (b: bool)
    ensures b <==> r == Contractor || r == StrictContractor
  {
    TierOf(r) == ContractorTier
  }

  /** At most one tier predicate holds; finance, the management tier, satisfies none. */
  lemma TiersExclusive(r: Role)
    ensures !(IsOwnerTier(r) && IsStaffTier(r))
    ensures !(IsOwnerTier(r) && IsContractorTier(r))
    ensures !(IsStaffTier(r) && IsContractorTier(r))
    ensures !IsOwnerTier(Finance) && !IsStaffTier(Finance) && !IsContractorTier(Finance)
  {
  }

  // ── Properties of the table ────────────────────────────────

  /** The owner holds every permission. */
  lemma OwnerHoldsEverything(p: Permission)
    ensures HasPermission(Owner, p)
  {
  }

  /** A business owner holds every permission except managing the subscription. */
  lemma BusinessOwnerAllButSubscription(p: Permission)
    ensures HasPermission(BusinessOwner, p) <==> p != ManageSubscription
  {
  }

  /** A permission held by one role alone is listed as that role alone. */
  lemma SoleHolder(p: Permission, r: Role)
    requires forall q :: HasPermission(q, p) <==> q == r
    ensures RolesWithPermission(p) == [r]
  {
    var rs := RolesWithPermission(p);
    assert forall q :: q in rs <==> q == r;
    AscendingSingleton(rs, r);
  }

  /** An ascending sequence holding `r` and nothing else is `[r]`. */
  lemma AscendingSingleton(rs: seq<Role>, r: Role)
    requires Ascending(rs)
    requires forall q :: q in rs <==> q == r
    ensures rs == [r]
  {
    assert r in rs;
    var last := |rs| - 1;
    assert rs[0] in rs && rs[last] in rs;
    AscendingSpread(rs);
  }

  /** In an ascending sequence, the i-th role sits at least i places after the first. */
  lemma {:induction false} AscendingSpread(rs: seq<Role>)
    requires Ascending(rs)
    ensures forall i :: 0 <= i < |rs| ==> RoleIndex(rs[i]) >= RoleIndex(rs[0]) + i
  {
    if |rs| > 1 {
      var init := rs[..|rs| - 1];
      assert Ascending(init);
      AscendingSpread(init);
      assert RoleIndex(rs[|rs| - 2]) < RoleIndex(rs[|rs| - 1]);
      forall i | 0 <= i < |rs|
        ensures RoleIndex(rs[i]) >= RoleIndex(rs[0]) + i
      {
        if i < |rs| - 1 {
          assert rs[i] == init[i];
        }
      }
    }
  }

  /** Only the owner may manage the subscription. */
  lemma OnlyOwnerManagesSubscription()
    ensures RolesWithPermission(ManageSubscription) == [Owner]
  {
    forall q ensures HasPermission(q, ManageSubscription) <==> q == Owner {
      SubscriptionHolder(q);
    }
    SoleHolder(ManageSubscription, Owner);
  }

  lemma SubscriptionHolder(r: Role)
    ensures HasPermission(r, ManageSubscription) <==> r == Owner
  {
    match r
    case Owner =>
    case BusinessOwner =>
    case Finance =>
    case Staff =>
    case StaffNoMaterial =>
    case StaffNoPricing =>
    case StaffNoPricingNoAttachments =>
    case Contractor =>
    case StrictContractor =>
  }

  /** The permissions on which two roles disagree. */
  predicate DiffersOnlyIn(r1: Role, r2: Role, only: Permission)
  {
    forall p :: HasPermission(r1, p) != HasPermission(r2, p) <==> p == only
  }

  /** Staff without material creation is staff minus creating new items. */
  lemma StaffNoMaterialVariant()
    ensures DiffersOnlyIn(Staff, StaffNoMaterial, CreateItems)
    ensures HasPermission(Staff, CreateItems) && !HasPermission(StaffNoMaterial, CreateItems)
  {
    assert PermissionsOf(StaffNoMaterial) == PermissionsOf(Staff) - {CreateItems};
  }

  /** Staff without pricing or attachments is staff without pricing minus viewing attachments. */
  lemma StaffNoAttachmentsVariant()
    ensures DiffersOnlyIn(StaffNoPricing, StaffNoPricingNoAttachments, ViewAttachments)
    ensures HasPermission(StaffNoPricing, ViewAttachments)
    ensures !HasPermission(StaffNoPricingNoAttachments, ViewAttachments)
  {
    assert PermissionsOf(StaffNoPricingNoAttachments) == PermissionsOf(StaffNoPricing) - {ViewAttachments};
  }

  /** Every role sees its own jobs. */
  lemma EveryRoleViewsOwnJobs(r: Role)
    ensures HasPermission(r, ViewOwnJobs)
  {
    match r
    case Owner =>
    case BusinessOwner =>
    case Finance =>
    case Staff =>
    case StaffNoMaterial =>
    case StaffNoPricing =>
    case StaffNoPricingNoAttachments =>
    case Contractor =>
    case StrictContractor =>
  }

  /** Only the contractor tier lacks the view of all jobs. */
  lemma AllJobsExceptContractors(r: Role)
    ensures !HasPermission(r, ViewAllJobs) <==> IsContractorTier(r)
  {
    match r
    case Owner =>
    case BusinessOwner =>
    case Finance =>
    case Staff =>
    case StaffNoMaterial =>
    case StaffNoPricing =>
    case StaffNoPricingNoAttachments =>
    case Contractor =>
    case StrictContractor =>
  }

  /** A strict contractor holds nothing a contractor does not. */
  lemma StrictContractorWithinContractor(p: Permission)
    ensures HasPermission(StrictContractor, p) ==> HasPermission(Contractor, p)
  {
  }

  /** Managing staff and deleting jobs belong to the owner tier alone. */
  lemma StaffAdministrationIsOwnerTier(r: Role)
    ensures HasPermission(r, ManageStaff) <==> IsOwnerTier(r)
    ensures HasPermission(r, DeleteJobs) <==> IsOwnerTier(r)
  {
    OwnerTierFlag(r, ManageStaff);
    OwnerTierFlag(r, DeleteJobs);
  }

  /** Settings and reporting belong to the owner tier alone. */
  lemma SettingsAreOwnerTier(r: Role)
    ensures HasPermission(r, ViewSettings) <==> IsOwnerTier(r)
    ensures HasPermission(r, ManageSettings) <==> IsOwnerTier(r)
    ensures HasPermission(r, ViewReporting) <==> IsOwnerTier(r)
  {
    OwnerTierFlag(r, ViewSettings);
    OwnerTierFlag(r, ManageSettings);
    OwnerTierFlag(r, ViewReporting);
  }

  /** A flag that the business owner holds and no role below the owner tier holds is an owner-tier flag. */
  lemma OwnerTierFlag(r: Role, p: Permission)
    requires p in BUSINESS_OWNER_PERMISSIONS && p !in FINANCE_PERMISSIONS && p !in STAFF_PERMISSIONS
    ensures HasPermission(r, p) <==> IsOwnerTier(r)
  {
    assert STAFF_NO_MATERIAL_PERMISSIONS <= STAFF_PERMISSIONS;
    assert STAFF_NO_PRICING_NO_ATTACHMENTS_PERMISSIONS <= STAFF_NO_PRICING_PERMISSIONS <= STAFF_PERMISSIONS;
    assert STRICT_CONTRACTOR_PERMISSIONS <= CONTRACTOR_PERMISSIONS <= STAFF_PERMISSIONS;
  }

  /** Finance sees all jobs, quotes, invoices, clients and profitability, but neither settings nor reporting. */
  lemma FinanceDescription()
    ensures !HasPermission(Finance, ViewSettings) && !HasPermission(Finance, ViewReporting)
    ensures HasPermission(Finance, ViewJobProfitability) && HasPermission(Finance, ViewInvoices)
    ensures !HasPermission(Finance, CreateJobs) && !HasPermission(Finance, CreateInvoices)
    ensures HasPermission(Finance, ViewAllJobs) && HasPermission(Finance, ViewQuotes) && HasPermission(Finance, ViewAllClients)
  {
  }

  /** Staff sees all jobs, clients and sale pricing, quotes, invoices and creates items, but sees no profitability, reporting or settings. */
  lemma StaffDescription()
    ensures !HasPermission(Staff, ViewJobProfitability) && HasPermission(Staff, ViewSalePricing)
    ensures HasPermission(Staff, ViewAllJobs) && HasPermission(Staff, ViewAllClients)
    ensures HasPermission(Staff, CreateQuotes) && HasPermission(Staff, CreateInvoices) && HasPermission(Staff, CreateItems)
    ensures !HasPermission(Staff, ViewReporting) && !HasPermission(Staff, ViewSettings)
  {
  }

  /** Staff without pricing sees jobs but no quotes, invoices, sale pricing or financial documents. */
  lemma StaffNoPricingDescription()
    ensures HasPermission(StaffNoPricing, ViewAllJobs)
    ensures !HasPermission(StaffNoPricing, ViewQuotes) && !HasPermission(StaffNoPricing, ViewInvoices)
    ensures !HasPermission(StaffNoPricing, ViewSalePricing) && !HasPermission(StaffNoPricing, ViewFinancialPdfs)
  {
  }

  /** Contractors quote and invoice their own work but create no jobs and see no client or staff lists. */
  lemma ContractorDescription()
    ensures !HasPermission(Contractor, CreateJobs) && !HasPermission(Contractor, ViewAllClients)
    ensures !HasPermission(Contractor, ViewStaffList) && HasPermission(Contractor, CreateInvoices)
    ensures HasPermission(Contractor, CreateQuotes) && HasPermission(Contractor, ViewOwnClients)
    ensures !HasPermission(Contractor, ViewAllJobs)
  {
  }

  /** Strict contractors see only their own jobs, and neither quote, invoice, see pricing, add items nor see the staff list. */
  lemma StrictContractorDescription()
    ensures HasPermission(StrictContractor, ViewOwnJobs) && !HasPermission(StrictContractor, ViewAllJobs)
    ensures !HasPermission(StrictContractor, CreateQuotes) && !HasPermission(StrictContractor, CreateInvoices)
    ensures !HasPermission(StrictContractor, ViewSalePricing) && !HasPermission(StrictContractor, CreateItems)
    ensures !HasPermission(StrictContractor, ApplyExistingItems) && !HasPermission(StrictContractor, ViewStaffList)
  {
  }
}
