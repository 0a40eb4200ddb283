/**
 * The user handlers: lookup by uid or email, a user's organizations, and a
 * user's CUI metadata, with best-effort enrichment from the metadata store.
 */
module UserService {
  import opened Wrappers
  import opened JavaLang
  import opened Arguments
  import opened Backend

  datatype UserOrganization = UserOrganization(
    orgId: Int64,
    orgName: Option<string>,
    cuiTenantId: Option<string>,
    cuiOrgId: Option<string>,
    cuiTenantControlEnabled: Option<bool>)

  datatype UserDto = UserDto(
    uid: Int64,
    name: Option<string>,
    email: Option<string>,
    isAdmin: Option<bool>,
    hasLoginSsoPermission: Option<bool>,
    locale: Option<string>,
    flagRegistered: Option<bool>,
    cuiUserId: Option<string>,
    cuiOrgId: Option<string>,
    cuiTenantId: Option<string>,
    organizations: Option<seq<UserOrganization>>)

  /**
   * The data-store calls the user handlers make. A query that finds no row
   * fails like any other call, and a null email or uid matches no row.
   */
  datatype UserStore = UserStore(
    byUid: Int64 -> Reply<UserDto>,
    byEmail: Option<string> -> Reply<UserDto>,
    cuiRow: Option<Int64> -> Reply<UserDto>,
    organizations: string -> Reply<seq<UserOrganization>>,
    metadata: Int64 -> Reply<Option<string>>,
    // Jackson's readTree of a metadata document: the `asText()` of each
    // top-level field, or None when the text is not JSON.
    parseMetadata: string -> Option<map<string, string>>)

  const MissingEmailMessage: string := "Either 'user_email' or 'identifier' parameter is required"

  // ---------------------------------------------------------------------
  // Arguments
  // ---------------------------------------------------------------------

  /**
   * `getLongArgument` of this handler group: a missing argument is null, not
   * an error; a number is truncated to a long; anything else is parsed from
   * its `toString()`.
   */
  function GetLongArgument(args: Args, key: string): (r: Result<Option<Int64>, Failure>)
    ensures Get(args, key).None? ==> r == Ok(None)
    ensures key in args && args[key].Num? ==> r == Ok(Some(Wrap64(args[key].n)))
    ensures Get(args, key).Some? && !args[key].Num? ==>
      match ParseLong(ToJavaString(args[key]))
      case Some(v) => r == Ok(Some(v))
      case None => r == Err(NumberFormat(ToJavaString(args[key])))
  {
    match Get(args, key)
    case None => Ok(None)
    case Some(v) =>
      if v.Num? then Ok(Some(Wrap64(v.n)))
      else match ParseLong(ToJavaString(v))
        case Some(n) => Ok(Some(n))
        case None => Err(NumberFormat(ToJavaString(v)))
  }

  /** A number and its decimal string read as the same long. */
  lemma NumberAndDecimalAgree(key: string, n: Int64)
    ensures GetLongArgument(map[key := Num(n)], key) == Ok(Some(n))
    ensures GetLongArgument(map[key := Str(IntToDecimal(n))], key) == Ok(Some(n))
  {
    ParseLongOfDecimal(n);
  }

  // ---------------------------------------------------------------------
  // Metadata enrichment
  // ---------------------------------------------------------------------

  /**
   * `enrichWithCuiMetadata`: never fails. A failed query, a null or blank
   * document, or a document that is not JSON leaves the user as it was;
   * otherwise `cuiUserId` and `cuiOrgId` become the document's fields, or
   * null where a field is missing.
   */
  function ApplyCuiMetadata(user: UserDto, stored: Reply<Option<string>>, parse: string -> Option<map<string, string>>): (r: UserDto)
    ensures r.(cuiUserId := user.cuiUserId, cuiOrgId := user.cuiOrgId) == user
    ensures (stored.Err? || stored.value.None? || IsBlank(stored.value.value) || parse(stored.value.value).None?) ==> r == user
    ensures stored.Ok? && stored.value.Some? && !IsBlank(stored.value.value) && parse(stored.value.value).Some? ==>
      var fields := parse(stored.value.value).value;
      && r.cuiUserId == (if "cuiUserId" in fields then Some(fields["cuiUserId"]) else None)
      && r.cuiOrgId == (if "cuiOrgId" in fields then Some(fields["cuiOrgId"]) else None)
  {
    match stored
    case Err(_) => user
    case Ok(None) => user
    case Ok(Some(text)) =>
      if IsBlank(text) then user
      else match parse(text)
        case None => user
        case Some(fields) =>
          user.(cuiUserId := if "cuiUserId" in fields then Some(fields["cuiUserId"]) else None,
                cuiOrgId := if "cuiOrgId" in fields then Some(fields["cuiOrgId"]) else None)
  }

  /** Enrichment reads the metadata stored under the user's own uid. */
  function Enrich(user: UserDto, store: UserStore): UserDto {
    ApplyCuiMetadata(user, store.metadata(user.uid), store.parseMetadata)
  }

  // ---------------------------------------------------------------------
  // get_user_by_id
  // ---------------------------------------------------------------------

  datatype LookupPath = ByUid(uid: Int64) | ByEmail(email: Option<string>)

  /** The identifier is tried as a long first; whatever does not parse (null included) is an email. */
  function IdentifierPath(identifier: Option<string>): (p: LookupPath)
    ensures p.ByUid? <==> identifier.Some? && ParseLong(identifier.value).Some?
    ensures p.ByUid? ==> p.uid == ParseLong(identifier.value).value
    ensures p.ByEmail? ==> p.email == identifier
  {
    if identifier.Some? && ParseLong(identifier.value).Some? then ByUid(ParseLong(identifier.value).value)
    else ByEmail(identifier)
  }

  /**
   * The tail of `getUserByUid` / `getUserByEmail`: the row, enriched when the
   * flag is true. A null flag is unboxed only after the row was found.
   */
  function FindUser(found: Reply<UserDto>, includeCuiMetadata: Option<bool>, store: UserStore): (r: Result<UserDto, Failure>)
    ensures found.Err? ==> r == Err(Failure.Backend(found.error))
    ensures found.Ok? && includeCuiMetadata == Some(true) ==> r == Ok(Enrich(found.value, store))
    ensures found.Ok? && includeCuiMetadata == Some(false) ==> r == Ok(found.value)
    ensures found.Ok? && includeCuiMetadata.None? ==> r.Err? && r.error.NullPointer?
  {
    match found
    case Err(m) => Err(Failure.Backend(m))
    case Ok(user) =>
      match includeCuiMetadata
      case None => Err(NullPointer(Some("Cannot invoke \"java.lang.Boolean.booleanValue()\" because \"includeCuiMetadata\" is null")))
      case Some(enabled) => if enabled then Ok(Enrich(user, store)) else Ok(user)
  }

  /** The row `getUserById` looks up for an identifier: by uid when it parses as a long, by email otherwise. */
  function Lookup(identifier: Option<string>, store: UserStore): (found: Reply<UserDto>)
    ensures identifier.Some? && ParseLong(identifier.value).Some? ==> found == store.byUid(ParseLong(identifier.value).value)
    ensures (identifier.None? || ParseLong(identifier.value).None?) ==> found == store.byEmail(identifier)
  {
    match IdentifierPath(identifier)
    case ByUid(uid) => store.byUid(uid)
    case ByEmail(email) => store.byEmail(email)
  }

  /**
   * `getUserById`: both casts come first; then the row the identifier
   * names, changed at most in its two CUI fields.
   */
  function GetUserById(args: Args, store: UserStore): (r: Result<UserDto, Failure>)
    ensures CastString(args, "identifier").Err? ==> r == Err(CastString(args, "identifier").error)
    ensures CastString(args, "identifier").Ok? && CastBooleanOrDefault(args, "include_cui_metadata", true).Err? ==>
      r == Err(CastBooleanOrDefault(args, "include_cui_metadata", true).error)
    ensures CastString(args, "identifier").Ok? && CastBooleanOrDefault(args, "include_cui_metadata", true).Ok? ==>
      r == FindUser(Lookup(CastString(args, "identifier").value, store),
                    CastBooleanOrDefault(args, "include_cui_metadata", true).value, store)
    ensures r.Ok? ==>
      var found := Lookup(CastString(args, "identifier").value, store);
      && found.Ok?
      && r.value.(cuiUserId := found.value.cuiUserId, cuiOrgId := found.value.cuiOrgId) == found.value
  {
    var identifier :- CastString(args, "identifier");
    var includeCuiMetadata :- CastBooleanOrDefault(args, "include_cui_metadata", true);
    FindUser(Lookup(identifier, store), includeCuiMetadata, store)
  }

  /** A non-string identifier (a JSON number, say) fails its cast before any lookup. */
  lemma NonStringIdentifierFails(args: Args, store: UserStore)
    requires "identifier" in args && !args["identifier"].Str? && !args["identifier"].Null?
    ensures GetUserById(args, store).Err? && GetUserById(args, store).error.ClassCast?
  {
  }

  /** A decimal identifier takes the uid path, enriched by default. */
  lemma {:induction false} DecimalIdentifierLooksUpUid(uid: Int64, store: UserStore)
    ensures GetUserById(map["identifier" := Str(IntToDecimal(uid))], store) == FindUser(store.byUid(uid), Some(true), store)
  {
    ParseLongOfDecimal(uid);
  }

  /**
   * An identifier with any character besides digits and signs (every email
   * address) takes the email path, never a number-format error.
   */
  lemma EmailIdentifierLooksUpEmail(args: Args, store: UserStore, s: string, i: nat)
    requires "identifier" in args && args["identifier"] == Str(s)
    requires i < |s| && !IsDigit(s[i]) && s[i] != '-' && s[i] != '+'
    requires CastBooleanOrDefault(args, "include_cui_metadata", true).Ok?
    ensures GetUserById(args, store) ==
      FindUser(store.byEmail(Some(s)), CastBooleanOrDefault(args, "include_cui_metadata", true).value, store)
  {
    ForeignCharacterNeverParses(s, i, MinLong, MaxLong);
  }

  // ---------------------------------------------------------------------
  // get_user_organizations
  // ---------------------------------------------------------------------

  /** `getUserOrganizations`: `user_email` if present, else `identifier`, else an error. */
  function GetUserOrganizations(args: Args, store: UserStore): (r: Result<seq<UserOrganization>, Failure>)
    ensures Get(args, "user_email").None? && Get(args, "identifier").None? ==> r == Err(IllegalArgument(MissingEmailMessage))
    ensures "user_email" in args && args["user_email"].Str? ==> r == Raised(store.organizations(args["user_email"].s))
    ensures Get(args, "user_email").None? && "identifier" in args && args["identifier"].Str? ==>
      r == Raised(store.organizations(args["identifier"].s))
    ensures CastString(args, "user_email").Err? ==> r == Err(CastString(args, "user_email").error)
    ensures Get(args, "user_email").None? && CastString(args, "identifier").Err? ==> r == Err(CastString(args, "identifier").error)
    ensures r.Err? && r.error.ClassCast? ==> CastString(args, "user_email").Err? || CastString(args, "identifier").Err?
  {
    var userEmail :- CastString(args, "user_email");
    var email :- if userEmail.Some? then Ok(userEmail) else CastString(args, "identifier");
    match email
    case None => Err(IllegalArgument(MissingEmailMessage))
    case Some(e) => Raised(store.organizations(e))
  }

  // ---------------------------------------------------------------------
  // get_user_cui_metadata
  // ---------------------------------------------------------------------

  /** The uid `getUserCuiMetadata` looks up: `uid`, and `identifier` only when `uid` is null. */
  function MetadataUid(args: Args): (r: Result<Option<Int64>, Failure>)
    ensures GetLongArgument(args, "uid") != Ok(None) ==> r == GetLongArgument(args, "uid")
    ensures Get(args, "uid").None? ==> r == GetLongArgument(args, "identifier")
  {
    var uid :- GetLongArgument(args, "uid");
    if uid.Some? then Ok(uid) else GetLongArgument(args, "identifier")
  }

  /** `getUserCuiMetadata`: the row for the uid, always enriched. */
  function GetUserCuiMetadata(args: Args, store: UserStore): (r: Result<UserDto, Failure>)
    ensures MetadataUid(args).Err? ==> r == Err(MetadataUid(args).error)
    ensures MetadataUid(args).Ok? && store.cuiRow(MetadataUid(args).value).Err? ==>
      r == Err(Failure.Backend(store.cuiRow(MetadataUid(args).value).error))
    ensures MetadataUid(args).Ok? && store.cuiRow(MetadataUid(args).value).Ok? ==>
      r == Ok(Enrich(store.cuiRow(MetadataUid(args).value).value, store))
    ensures r.Ok? ==> r.value == Enrich(store.cuiRow(MetadataUid(args).value).value, store)
  {
    var uid :- MetadataUid(args);
    var user :- Raised(store.cuiRow(uid));
    Ok(Enrich(user, store))
  }

  /** A present `uid` wins: `identifier` is then not even read. */
  lemma UidShadowsIdentifier(args: Args, store: UserStore)
    requires Get(args, "uid").Some?
    ensures GetUserCuiMetadata(args, store) == GetUserCuiMetadata(args - {"identifier"}, store)
  {
    assert Get(args - {"identifier"}, "uid") == Get(args, "uid");
  }
}
