/** The configuration checks `AlloyDBEngine._create` runs before it builds
    an engine: the user/password rule, the ip-type selector, and the choice
    between basic and IAM database authentication, including how the IAM
    principal's e-mail becomes the database user. */
module Auth {
  import opened Common
  import opened Text

  /** The connector's `IPTypes` values the engine uses. */
  datatype IpType = Public | Private

  /** The `ip_type` argument: a string to be parsed, or an `IPTypes` value. */
  datatype IpTypeArg = IpName(name: string) | IpValue(ipType: IpType)

  /** Python truthiness of an optional string: present and non-empty. */
  predicate Truthy(s: Option<string>)
  {
    s.Some? && s.value != ""
  }

  /** The parameters the engine's connection factory hands to the connector. */
  datatype ConnectParams = ConnectParams(
    instancePath: string,
    driver: string,
    user: string,
    password: Option<string>,
    database: string,
    enableIamAuth: bool,
    ipType: IpType)

  const ServiceAccountDomain := ".gserviceaccount.com"

  /** Only both or neither of user and password may be given. */
  predicate CredentialsConsistent(user: Option<string>, password: Option<string>)
  {
    Truthy(user) == Truthy(password)
  }

  /** Resolution of the `ip_type` argument: a string is compared with
      `public` and `private` after lower-casing, an enum value passes through. */
  function ParseIpType(arg: IpTypeArg): (r: Result<IpType>)
    ensures arg.IpValue? ==> r == Ok(arg.ipType)
    ensures arg.IpName? ==> (r == Ok(Public) <==> SpellsIgnoringCase(arg.name, "public"))
    ensures arg.IpName? ==> (r == Ok(Private) <==> SpellsIgnoringCase(arg.name, "private"))
    ensures arg.IpName? ==>
      (r.Err? <==> !SpellsIgnoringCase(arg.name, "public") && !SpellsIgnoringCase(arg.name, "private"))
    ensures r.Err? ==> r.error == UnknownIpType
  {
    match arg
    case IpValue(t) => Ok(t)
    case IpName(s) =>
      LowerEqualsWord(s, "public");
      LowerEqualsWord(s, "private");
      if Lower(s) == "public" then Ok(Public)
      else if Lower(s) == "private" then Ok(Private)
      else Err(UnknownIpType)
  }

  /** The IAM principal's database user name, from the `email` field of the
      token-info reply: a missing field is an error, otherwise every
      occurrence of the service-account domain is removed. */
  function IamPrincipalEmail(tokenEmail: Option<string>): (r: Result<string>)
    ensures r.Err? <==> tokenEmail.None?
    ensures r.Err? ==> r.error == NoPrincipalEmail
    ensures r.Ok? ==> |r.value| <= |tokenEmail.value|
  {
    match tokenEmail
    case None => Err(NoPrincipalEmail)
    case Some(email) => Ok(RemoveAll(email, ServiceAccountDomain))
  }

  /** A service account's address loses its domain suffix. */
  lemma ServiceAccountEmailStripped(account: string)
    requires forall i: nat :: i < |account| ==>
      !OccursAt(account + ServiceAccountDomain, ServiceAccountDomain, i)
    ensures IamPrincipalEmail(Some(account + ServiceAccountDomain)) == Ok(account)
  {
    StripsTrailingOccurrence(account, ServiceAccountDomain);
  }

  /** An address that does not mention the service-account domain, such as a
      user's own, is used as it is; and only such an address is. */
  lemma UserEmailUnchanged(email: string)
    ensures IamPrincipalEmail(Some(email)) == Ok(email) <==> !Contains(email, ServiceAccountDomain)
  {
    RemoveAllUnchangedIff(email, ServiceAccountDomain);
  }

  /** The normalised address may still contain the domain: removal is one pass. */
  lemma NormalisedEmailMayKeepDomain()
    ensures IamPrincipalEmail(Some("." + ServiceAccountDomain + "gserviceaccount.com"))
         == Ok(ServiceAccountDomain)
  {
    var p := ServiceAccountDomain;
    assert p[..1] + p + p[1..] == "." + ServiceAccountDomain + "gserviceaccount.com";
    RemovalCanLeaveOccurrence(p);
  }

  function InstancePath(project: string, region: string, cluster: string, instance: string): string
  {
    "projects/" + project + "/locations/" + region + "/clusters/" + cluster + "/instances/" + instance
  }

  /** What `_create` decides before any connection is opened: the
      user/password check, then the ip type, then the authentication mode,
      where IAM authentication takes its user from the token-info e-mail
      (`tokenEmail` stands for the reply of the identity service). */
  function ResolveConnection(
    project: string, region: string, cluster: string, instance: string, database: string,
    ipType: IpTypeArg, user: Option<string>, password: Option<string>,
    tokenEmail: Option<string>): (r: Result<ConnectParams>)
    ensures r == Err(CredentialsMismatch) <==> !CredentialsConsistent(user, password)
    ensures CredentialsConsistent(user, password) && ParseIpType(ipType).Err? ==> r == Err(UnknownIpType)
    ensures (CredentialsConsistent(user, password) && ParseIpType(ipType).Ok?
             && !Truthy(user) && tokenEmail.None?) ==> r == Err(NoPrincipalEmail)
    ensures r.Err? <==>
      !CredentialsConsistent(user, password) || ParseIpType(ipType).Err?
      || (!Truthy(user) && tokenEmail.None?)
    ensures r.Ok? ==> r.value.ipType == ParseIpType(ipType).value
    ensures r.Ok? ==> (!r.value.enableIamAuth <==> Truthy(user) && Truthy(password))
    ensures r.Ok? && !r.value.enableIamAuth ==>
      r.value.user == user.value && r.value.password == password
    ensures r.Ok? && r.value.enableIamAuth ==>
      !Truthy(user) && !Truthy(password) && tokenEmail.Some?
      && r.value.user == RemoveAll(tokenEmail.value, ServiceAccountDomain)
      && r.value.password == password
    ensures r.Ok? ==>
      r.value.instancePath == InstancePath(project, region, cluster, instance)
      && r.value.driver == "asyncpg" && r.value.database == database
  {
    if Truthy(user) != Truthy(password) then Err(CredentialsMismatch)
    else match ParseIpType(ipType)
      case Err(e) => Err(e)
      case Ok(ip) =>
        if Truthy(user) && Truthy(password) then
          Ok(ConnectParams(InstancePath(project, region, cluster, instance), "asyncpg",
                           user.value, password, database, false, ip))
        else match IamPrincipalEmail(tokenEmail)
          case Err(e) => Err(e)
          case Ok(dbUser) =>
            Ok(ConnectParams(InstancePath(project, region, cluster, instance), "asyncpg",
                             dbUser, password, database, true, ip))
  }

  /** Basic authentication never consults the identity service: the outcome
      does not depend on the token-info reply. */
  lemma BasicAuthIgnoresIdentity(
    project: string, region: string, cluster: string, instance: string, database: string,
    ipType: IpTypeArg, user: Option<string>, password: Option<string>,
    e1: Option<string>, e2: Option<string>)
    requires Truthy(user) && Truthy(password)
    ensures ResolveConnection(project, region, cluster, instance, database, ipType, user, password, e1)
         == ResolveConnection(project, region, cluster, instance, database, ipType, user, password, e2)
  {
  }
}
