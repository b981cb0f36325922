/** Server actions on the user profile (client/actions/user.js): the
    profile update with its insights trigger and payload projection, and
    the onboarding check.  The request body is modelled as a map from field
    names to JSON values. */
module UserActions {
  import opened Wrappers
  import DashboardActions

  datatype JsonValue = JsonString(s: string) | JsonNumber(n: int) | JsonBool(b: bool)
                     | JsonList(items: seq<JsonValue>) | JsonNull

  /** JavaScript truthiness of a present value. */
  predicate Truthy(v: JsonValue) {
    match v
    case JsonString(s) => s != ""
    case JsonNumber(n) => n != 0
    case JsonBool(b) => b
    case JsonList(_) => true
    case JsonNull => false
  }

  /** The only fields `updateUser` forwards. */
  const ProfileFields: set<string> := {"industry", "experience", "bio", "skills"}

  const UpdateError := "Failed to update profile"
  const OnboardingError := "Failed to check onboarding status"

  /** The body sent to `/user/profile`: the four profile fields of `data`,
      each exactly as given; a field `data` lacks is left out of the JSON
      body, and every other field of `data` is dropped. */
  function ProfilePayload(data: map<string, JsonValue>): (payload: map<string, JsonValue>)
    ensures payload.Keys == data.Keys * ProfileFields
    ensures forall k :: k in payload ==> payload[k] == data[k]
  {
    map k | k in data && k in ProfileFields :: data[k]
  }

  /** Projecting twice is projecting once. */
  lemma ProfilePayloadIdempotent(data: map<string, JsonValue>)
    ensures ProfilePayload(ProfilePayload(data)) == ProfilePayload(data)
  {
    var p := ProfilePayload(data);
    assert ProfilePayload(p).Keys == p.Keys;
  }

  /** A field outside the profile, added or changed, does not reach the body. */
  lemma ProfilePayloadIgnoresOtherFields(data: map<string, JsonValue>, k: string, v: JsonValue)
    requires k !in ProfileFields
    ensures ProfilePayload(data[k := v]) == ProfilePayload(data)
  {
    assert ProfilePayload(data[k := v]).Keys == ProfilePayload(data).Keys;
  }

  /** Insights are generated only for a truthy `data.industry`. */
  predicate RequestsInsights(data: map<string, JsonValue>) {
    "industry" in data && Truthy(data["industry"])
  }

  /** `updateUser`.  Insight generation never fails (it falls back), so the
      outcome depends on the profile update alone. */
  function UpdateUser<A>(data: map<string, JsonValue>, reply: Result<A>)
    : (r: (bool, map<string, JsonValue>, Result<A>))
    ensures r.0 <==> "industry" in data && Truthy(data["industry"])
    ensures r.1 == ProfilePayload(data)
    ensures r.2.Ok? <==> reply.Ok?
    ensures r.2.Ok? ==> r.2.value == reply.value
    ensures r.2.Err? ==> r.2.message == UpdateError
  {
    (RequestsInsights(data), ProfilePayload(data), if reply.Ok? then Ok(reply.value) else Err(UpdateError))
  }

  /** `!!user?.profile?.industry`. */
  predicate IsOnboarded(user: Option<DashboardActions.UserRecord>) {
    user.Some? && DashboardActions.IndustryOf(user.value).Some? && DashboardActions.IndustryOf(user.value).value != ""
  }

  /** `getUserOnboardingStatus`: onboarded iff the user's profile names a
      non-empty industry; a failed fetch becomes the one fixed error. */
  function GetUserOnboardingStatus(reply: Result<Option<DashboardActions.UserRecord>>): (r: Result<bool>)
    ensures r.Ok? <==> reply.Ok?
    ensures r.Ok? ==> (r.value <==>
      && reply.value.Some?
      && reply.value.value.profile.Some?
      && reply.value.value.profile.value.industry.Some?
      && reply.value.value.profile.value.industry.value != "")
    ensures r.Err? ==> r.message == OnboardingError
  {
    if reply.Ok? then Ok(IsOnboarded(reply.value)) else Err(OnboardingError)
  }
}
