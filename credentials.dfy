/** What every authentication path hands to the request: the `{'user', 'roles',
    'authenticated'}` dictionary, and the `roles or ['user']` default used when keys and
    tokens are issued. */
module Credentials {
  import opened Wrappers

  datatype AuthInfo = AuthInfo(user: Option<string>, roles: seq<string>, authenticated: bool)

  /** `roles or ['user']`: a missing or empty role list becomes `['user']`. */
  function RolesOrDefault(roles: Option<seq<string>>): (r: seq<string>)
    ensures r != []
    ensures roles.Some? && roles.value != [] ==> r == roles.value
  {
    if roles.Some? && roles.value != [] then roles.value else ["user"]
  }
}
