/**
 * The account-management handler: a user's regions, read over RPC by
 * email address and shaped into a `UserRegionsDto`.
 */
module AccountManagement {
  import opened Wrappers
  import opened JavaLang
  import opened Arguments
  import opened Backend

  /** The RPC's reply: the region ids, and the default region. */
  datatype RegionResponse = RegionResponse(regionIdList: seq<Int32>, defaultRegionId: Int32)

  datatype UserRegionsDto = UserRegionsDto(
    email: Option<string>,
    regionIds: Option<seq<Int32>>,
    totalRegions: int,
    defaultRegionId: Option<Int32>)

  /** The number of regions a possibly-null list holds. */
  function RegionCount(regionIds: Option<seq<Int32>>): nat {
    match regionIds
    case Some(ids) => |ids|
    case None => 0
  }

  /** `UserRegionsDto.fromRegionIds`: no default region. */
  function FromRegionIds(email: Option<string>, regionIds: Option<seq<Int32>>): (d: UserRegionsDto)
    ensures d.email == email && d.regionIds == regionIds
    ensures d.totalRegions == RegionCount(regionIds)
    ensures d.defaultRegionId.None?
  {
    UserRegionsDto(email, regionIds, if regionIds.Some? then |regionIds.value| else 0, None)
  }

  /** `UserRegionsDto.fromRegionResponse`: the same, with the default region set. */
  function FromRegionResponse(email: Option<string>, regionIds: Option<seq<Int32>>, defaultRegionId: Option<Int32>): (d: UserRegionsDto)
    ensures d.email == email && d.regionIds == regionIds
    ensures d.totalRegions == RegionCount(regionIds)
    ensures d.defaultRegionId == defaultRegionId
  {
    UserRegionsDto(email, regionIds, if regionIds.Some? then |regionIds.value| else 0, defaultRegionId)
  }

  /** The two factories differ only in the default region. */
  lemma FactoriesAgree(email: Option<string>, regionIds: Option<seq<Int32>>, defaultRegionId: Option<Int32>)
    ensures FromRegionResponse(email, regionIds, defaultRegionId) == FromRegionIds(email, regionIds).(defaultRegionId := defaultRegionId)
  {
  }

  /** Three regions are counted as three. */
  lemma ThreeRegions()
    ensures FromRegionIds(Some("test@example.com"), Some([1, 2, 3])).totalRegions == 3
  {
  }

  /** `getStringArgument`: a missing argument is an error; anything else is its `toString()`. */
  function GetStringArgument(args: Args, key: string): (r: Result<string, Failure>)
    ensures Get(args, key).None? <==> r.Err?
    ensures r.Err? ==> r.error == IllegalArgument("Required argument '" + key + "' is missing")
    ensures r.Ok? ==> r.value == ToJavaString(args[key])
  {
    match Get(args, key)
    case None => Err(IllegalArgument("Required argument '" + key + "' is missing"))
    case Some(v) => Ok(ToJavaString(v))
  }

  const RegionsFailurePrefix: string := "Failed to get user regions: "

  /**
   * `getUserRegions`: one RPC with the email; its failure is rethrown with a
   * prefix, while a missing email, raised before the call, is not.
   */
  function GetUserRegions(args: Args, rpc: string -> Reply<RegionResponse>): (r: Result<UserRegionsDto, Failure>)
    ensures GetStringArgument(args, "email").Err? ==> r == Err(GetStringArgument(args, "email").error)
    ensures GetStringArgument(args, "email").Ok? ==>
      var email := GetStringArgument(args, "email").value;
      && (rpc(email).Err? ==> r == Err(Runtime(RegionsFailurePrefix + rpc(email).error)))
      && (rpc(email).Ok? ==>
            && r.Ok?
            && r.value.email == Some(email)
            && r.value.regionIds == Some(rpc(email).value.regionIdList)
            && r.value.totalRegions == |rpc(email).value.regionIdList|
            && r.value.defaultRegionId == Some(rpc(email).value.defaultRegionId))
  {
    var email :- GetStringArgument(args, "email");
    match rpc(email)
    case Ok(response) => Ok(FromRegionResponse(Some(email), Some(response.regionIdList), Some(response.defaultRegionId)))
    case Err(m) => Err(Runtime(RegionsFailurePrefix + m))
  }

  /** The handler asks the RPC about the given email and nothing else. */
  lemma RegionsDependOnlyOnEmail(args: Args, rpc1: string -> Reply<RegionResponse>, rpc2: string -> Reply<RegionResponse>)
    requires GetStringArgument(args, "email").Ok?
    requires rpc1(GetStringArgument(args, "email").value) == rpc2(GetStringArgument(args, "email").value)
    ensures GetUserRegions(args, rpc1) == GetUserRegions(args, rpc2)
  {
  }

  /** Without an email the call fails with the missing-argument message, whatever the RPC would say. */
  lemma MissingEmail(rpc: string -> Reply<RegionResponse>)
    ensures GetUserRegions(map[], rpc) == Err(IllegalArgument("Required argument 'email' is missing"))
  {
    assert "Required argument '" + "email" + "' is missing" == "Required argument 'email' is missing";
  }

  /** A number given as the email is sent as its decimal string. */
  lemma NumericEmailSentAsDecimal(n: int, rpc: string -> Reply<RegionResponse>)
    ensures GetUserRegions(map["email" := Num(n)], rpc) == GetUserRegions(map["email" := Str(IntToDecimal(n))], rpc)
  {
  }
}
