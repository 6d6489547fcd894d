/** packages/policy/src/engine.ts: the deterministic gate, with its default settings. */
module Policy {
  import opened Basics

  datatype Role = Owner | Admin | Executive | TeamLead | TeamMember | Contractor

  const PREPARE := 1
  const ROUTINE_ACTION := 2
  const APPROVAL_REQUIRED := 3
  const NEVER_AUTONOMOUS := 4

  function RoleCeiling(r: Role): int {
    match r
    case Owner => NEVER_AUTONOMOUS
    case Admin => NEVER_AUTONOMOUS
    case Executive => APPROVAL_REQUIRED
    case TeamLead => APPROVAL_REQUIRED
    case TeamMember => ROUTINE_ACTION
    case Contractor => PREPARE
  }

  datatype Scope = OrganizationScope | TeamScope | ProjectScope | PrivateScope

  datatype PrincipalContext = PrincipalContext(
    userId: Text,
    organizationId: Text,
    role: Role,
    human: bool,
    teamIds: seq<Text>,
    projectIds: seq<Text>
  )

  datatype Resource = Resource(
    organizationId: Text,
    scope: Scope,
    ownerUserId: Option<Text>,
    teamId: Option<Text>,
    projectId: Option<Text>
  )

  datatype PolicyInput = PolicyInput(principal: PrincipalContext, authorityLevel: int, resource: Resource)

  datatype Denial = CrossTenant | ScopeDenied | InsufficientAuthority | NeverAutonomous

  datatype Decision = Allow | Deny(reason: Denial) | RequiresApproval

  predicate HasScopeAccess(p: PrincipalContext, r: Resource) {
    match r.scope
    case OrganizationScope => true
    case TeamScope => r.teamId.Some? && r.teamId.value in p.teamIds
    case ProjectScope => r.projectId.Some? && r.projectId.value in p.projectIds
    case PrivateScope => r.ownerUserId == Some(p.userId)
  }

  function Evaluate(i: PolicyInput): Decision {
    if i.resource.organizationId != i.principal.organizationId then Deny(CrossTenant)
    else if !HasScopeAccess(i.principal, i.resource) then Deny(ScopeDenied)
    else if i.authorityLevel > RoleCeiling(i.principal.role) then Deny(InsufficientAuthority)
    else if i.authorityLevel == NEVER_AUTONOMOUS then
      if i.principal.human then Allow else Deny(NeverAutonomous)
    else if i.authorityLevel == APPROVAL_REQUIRED then RequiresApproval
    else Allow
  }
}
