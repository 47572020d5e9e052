/** The shared declarations of the `types` package: the role names and the claims a token carries. */
module Types {

  /** The closed role enumeration the package declares. The identity service does not enforce it. */
  datatype Role = Admin | Manager | Resident | Collector | Supervisor

  /** The wire spelling of each role. */
  function RoleName(r: Role): string
  {
    match r
    case Admin => "admin"
    case Manager => "manager"
    case Resident => "resident"
    case Collector => "collector"
    case Supervisor => "supervisor"
  }

  /** The claims the identity service signs: subject id, email and roles. Roles are plain strings,
      because signup stores whatever role string it is given. */
  datatype JwtUserClaims = JwtUserClaims(sub: string, email: string, roles: seq<string>)
}
