/**
 * The directory client of the root rest_api_helper.py. Its create_group, get_all_ldap_group_users,
 * modify_group_membership and call_rest_api are the same as those of custom_auth/rest_api_helper.py
 * and are modelled once, by RestApiHelper.Client; this module adds the one operation only the root
 * client has, the lookup of a group by name prefix.
 */
module RootRestApiHelper {
  import opened Outcomes
  import opened IdentityService
  import opened RestApiHelper

  /** get_ldap_group's 2-tuple: the first matching group (or None), and whether there was one. */
  datatype Lookup = Lookup(group: Option<Item>, found: bool)

  /**
   * Lines 51-57: anything but 200 raises with the response text; otherwise the first item and True,
   * and None and False when the list is empty (the IndexError of `items[0]`).
   */
  function GroupLookup(resp: Response): (r: Result<Lookup>)
    ensures r.Ok? <==> resp.status == StatusOk
    ensures r.Err? ==> r.error == ServiceError(resp.text)
    ensures r.Ok? ==> (r.value.found <==> |resp.items| > 0) && (r.value.group.Some? <==> r.value.found)
    ensures r.Ok? && r.value.found ==> r.value.group.value == resp.items[0]
  {
    if resp.status != StatusOk then Err(ServiceError(resp.text))
    else if |resp.items| == 0 then Ok(Lookup(None, false))
    else Ok(Lookup(Some(resp.items[0]), true))
  }

  /** Only the first match counts: two answers that agree on status and first item give the same lookup. */
  lemma GroupLookupFirstOnly(a: Response, b: Response)
    requires a.status == b.status == StatusOk
    requires |a.items| > 0 && |b.items| > 0 && a.items[0] == b.items[0]
    ensures GroupLookup(a) == GroupLookup(b)
  {
  }

  /** Lines 42-57: search the groups whose name starts with `name` and look at the first one. */
  method GetLdapGroup(client: Client, name: string) returns (r: Result<Lookup>)
    requires client.Valid()
    modifies client`token, client.service
    ensures client.Valid()
    ensures client.token == client.TokenAfterCall(old(client.token))
    ensures client.service.received ==
      old(client.service.received) + [Request("get", SearchRoute(name), client.Head(), client.defaults.data)]
    ensures client.service.groups == old(client.service.groups)
    ensures r == GroupLookup(client.service.answer(old(|client.service.received|)))
  {
    var resp := client.CallRestApi(SearchRoute(name), "get", client.defaults);
    r := GroupLookup(resp);
  }
}
