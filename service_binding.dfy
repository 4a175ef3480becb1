/**
 * Start-up configuration (index.js:7-15): choosing the consent-authority
 * binding among the bound services and the host its calls go to.
 *
 * The descriptor (VCAP_SERVICES, or default-services.json when that variable
 * is unset) is taken already parsed, as the list of its own properties in
 * `Object.keys` order.
 */
module ServiceBinding {
  import opened JsValue

  const GigyaTag := "gigya"
  const DefaultHost := "https://gigya-gw-sarah.cfapps.sap.hana.ondemand.com"

  predicate DistinctKeys(s: seq<(string, Value)>) {
    forall i, j :: 0 <= i < j < |s| ==> s[i].0 != s[j].0
  }

  /** The own properties of a parsed descriptor object: no key appears twice. */
  type Services = s: seq<(string, Value)> | DistinctKeys(s)

  /** The resolved binding: the service entry tagged `gigya` and the host to call. */
  datatype Config = Config(service: Value, host: string)

  /** The `tags` of the first credential set of a bound service, once that set is known to be truthy. */
  function Tags(binding: Value): Value
    requires !IsNullish(binding) && Truthy(At(binding, 0))
  {
    Prop(At(binding, 0), "tags")
  }

  /**
   * The tag list names the consent authority: an array holding the string
   * "gigya", or a string in which "gigya" occurs (indexOf on a string is a
   * substring search).
   */
  ghost predicate ListsGigya(tags: Value) {
    || (tags.Arr? && Str(GigyaTag) in tags.items)
    || (tags.Str? && exists j: nat :: OccursAt(tags.s, GigyaTag, j))
  }

  /** `tags.indexOf('gigya')`; on anything but an array or a string there is no indexOf to call. */
  function TagIndex(tags: Value): (r: Result<int, Exception>)
    ensures r.Ok? <==> tags.Arr? || tags.Str?
    ensures r.Ok? ==> (r.value >= 0 <==> ListsGigya(tags))
  {
    match tags
    case Arr(items) => Ok(ArrayIndexOf(items, Str(GigyaTag)))
    case Str(s) => Ok(IndexOf(s, GigyaTag))
    case _ => Err(TypeError)
  }

  /**
   * The test handed to `find` for the descriptor entry `binding`:
   * `binding[0] && binding[0].tags && binding[0].tags.indexOf('gigya') >= 0`,
   * read by truthiness. It throws when `binding` is null, or when the tags
   * are truthy but neither an array nor a string.
   */
  function IsGigyaBinding(binding: Value): (r: Result<bool, Exception>)
    ensures r == Ok(true) <==>
              !IsNullish(binding) && Truthy(At(binding, 0)) && ListsGigya(Tags(binding))
    ensures r.Err? <==>
              IsNullish(binding) ||
              (Truthy(At(binding, 0)) && Truthy(Tags(binding)) && !Tags(binding).Arr? && !Tags(binding).Str?)
  {
    if IsNullish(binding) then Err(TypeError)
    else
      var first := At(binding, 0);
      if !Truthy(first) then Ok(false)
      else
        var tags := Prop(first, "tags");
        if !Truthy(tags) then Ok(false)
        else
          match TagIndex(tags)
          case Err(e) => Err(e)
          case Ok(k) => Ok(k >= 0)
  }

  /**
   * `Object.keys(services).find(...)`: the key of the first entry the test
   * accepts. The entries before it are tested and rejected; an exception
   * raised by a test ends the search; entries after the found one are never
   * tested.
   */
  function FindGigyaKey(services: seq<(string, Value)>): (r: Result<Option<string>, Exception>)
    ensures r == Ok(None) <==> forall j :: 0 <= j < |services| ==> IsGigyaBinding(services[j].1) == Ok(false)
    ensures r.Ok? && r.value.Some? ==>
              exists i :: 0 <= i < |services| && services[i].0 == r.value.value &&
                IsGigyaBinding(services[i].1) == Ok(true) &&
                forall j :: 0 <= j < i ==> IsGigyaBinding(services[j].1) == Ok(false)
    ensures r.Err? ==>
              exists i :: 0 <= i < |services| && IsGigyaBinding(services[i].1) == Err(r.error) &&
                forall j :: 0 <= j < i ==> IsGigyaBinding(services[j].1) == Ok(false)
  {
    if |services| == 0 then Ok(None)
    else
      match IsGigyaBinding(services[0].1)
      case Err(e) => Err(e)
      case Ok(found) =>
        if found then Ok(Some(services[0].0))
        else
          var rest := FindGigyaKey(services[1..]);
          assert forall j :: 1 <= j < |services| ==> services[j] == services[1..][j - 1];
          rest
  }

  /** `services[key]`: the value of the entry named `key`, undefined when there is none. */
  function Lookup(services: seq<(string, Value)>, key: string): Value {
    if |services| == 0 then Undefined
    else if services[0].0 == key then services[0].1
    else Lookup(services[1..], key)
  }

  lemma {:induction false} LookupFindsEntry(services: seq<(string, Value)>, i: nat)
    requires DistinctKeys(services) && i < |services|
    ensures Lookup(services, services[i].0) == services[i].1
  {
    if i > 0 {
      assert services[0].0 != services[i].0;
      assert DistinctKeys(services[1..]) by {
        forall a, b | 0 <= a < b < |services| - 1 ensures services[1..][a].0 != services[1..][b].0 {
          assert services[1..][a] == services[a + 1] && services[1..][b] == services[b + 1];
        }
      }
      LookupFindsEntry(services[1..], i - 1);
    }
  }

  /** `gigyaService.credentials.host || gigyaDefaultHost`, as a string once interpolated into a URL. */
  function ResolveHost(credentialHost: Value): (host: string)
    ensures Truthy(credentialHost) ==> host == ToJsString(credentialHost)
    ensures !Truthy(credentialHost) ==> host == DefaultHost
  {
    ToJsString(Or(credentialHost, Str(DefaultHost)))
  }

  /**
   * Start-up: find the consent-authority binding, assert that its key is
   * truthy, take its first credential set and resolve the host. Reading
   * `credentials.host` throws when the set has no credentials object.
   */
  function SelectService(services: Services): (r: Result<Config, Exception>)
    ensures r == Err(AssertionError) <==>
              FindGigyaKey(services) == Ok(None) || FindGigyaKey(services) == Ok(Some(""))
    ensures r.Ok? ==>
              exists i :: 0 <= i < |services| && services[i].0 != "" &&
                IsGigyaBinding(services[i].1) == Ok(true) &&
                (forall j :: 0 <= j < i ==> IsGigyaBinding(services[j].1) == Ok(false)) &&
                r.value.service == At(services[i].1, 0) &&
                !IsNullish(Prop(r.value.service, "credentials")) &&
                r.value.host == ResolveHost(Prop(Prop(r.value.service, "credentials"), "host"))
  {
    match FindGigyaKey(services)
    case Err(e) => Err(e)
    case Ok(found) =>
      if found.None? || found.value == "" then Err(AssertionError)
      else
        var key := found.value;
        assert exists i :: 0 <= i < |services| && services[i].0 == key &&
                 IsGigyaBinding(services[i].1) == Ok(true) &&
                 (forall j :: 0 <= j < i ==> IsGigyaBinding(services[j].1) == Ok(false)) &&
                 Lookup(services, key) == services[i].1 by {
          var i :| 0 <= i < |services| && services[i].0 == key &&
                   IsGigyaBinding(services[i].1) == Ok(true) &&
                   forall j :: 0 <= j < i ==> IsGigyaBinding(services[j].1) == Ok(false);
          LookupFindsEntry(services, i);
        }
        var service := At(Lookup(services, key), 0);
        var credentials := Prop(service, "credentials");
        if IsNullish(credentials) then Err(TypeError)
        else Ok(Config(service, ResolveHost(Prop(credentials, "host"))))
  }

  /** An exception raised inside `find` is the exception start-up fails with. */
  lemma SelectServicePropagatesSearchFailure(services: Services)
    requires FindGigyaKey(services).Err?
    ensures SelectService(services) == Err(FindGigyaKey(services).error)
  {
  }

  /**
   * Once `find` returns a non-empty key, start-up succeeds exactly when the
   * tagged binding's first credential set has a `credentials` object, and
   * then yields that set and the host resolved from it; otherwise reading
   * `credentials.host` throws a TypeError.
   */
  lemma {:induction false} SelectServiceOnFoundKey(services: Services, key: string)
    requires FindGigyaKey(services) == Ok(Some(key)) && key != ""
    ensures !IsNullish(Lookup(services, key)) && Truthy(At(Lookup(services, key), 0))
    ensures var service := At(Lookup(services, key), 0);
            var credentials := Prop(service, "credentials");
            && (SelectService(services).Ok? <==> !IsNullish(credentials))
            && (!IsNullish(credentials) ==>
                  SelectService(services) == Ok(Config(service, ResolveHost(Prop(credentials, "host")))))
            && (IsNullish(credentials) ==> SelectService(services) == Err(TypeError))
  {
    var i :| 0 <= i < |services| && services[i].0 == key &&
             IsGigyaBinding(services[i].1) == Ok(true) &&
             forall j :: 0 <= j < i ==> IsGigyaBinding(services[j].1) == Ok(false);
    LookupFindsEntry(services, i);
  }
}
