/** JWT persistence in the extension's local storage area: one key per JWT
    host, `jwt_` followed by the host. */
module Storage {
  import opened Wrappers
  import opened Json
  import opened Text

  /** `toJwtStorageKey`: the `jwt` storage prefix, an underscore, the host. */
  function ToJwtStorageKey(host: string): (key: string)
    ensures |key| == |host| + 4
    ensures StartsWith(key, "jwt_")
    ensures key[4..] == host
  {
    "jwt" + "_" + host
  }

  /** The host a storage key belongs to, if it is a JWT key. */
  function HostOfJwtKey(key: string): (host: Option<string>)
    ensures host.Some? <==> StartsWith(key, "jwt_")
  {
    if StartsWith(key, "jwt_") then Some(key[4..]) else None
  }

  /** The key of a host names that host and no other. */
  lemma JwtKeyRoundTrip(host: string)
    ensures HostOfJwtKey(ToJwtStorageKey(host)) == Some(host)
  {
  }

  /** Every JWT key is the key of the host it names. */
  lemma JwtKeyOfHost(key: string)
    requires HostOfJwtKey(key).Some?
    ensures ToJwtStorageKey(HostOfJwtKey(key).value) == key
  {
    var key' := ToJwtStorageKey(key[4..]);
    assert key'[..4] == key[..4];
    assert key' == key'[..4] + key'[4..];
    assert key == key[..4] + key[4..];
  }

  /** Distinct hosts have distinct keys. */
  lemma JwtKeyInjective(host1: string, host2: string)
    requires host1 != host2
    ensures ToJwtStorageKey(host1) != ToJwtStorageKey(host2)
  {
    JwtKeyRoundTrip(host1);
    JwtKeyRoundTrip(host2);
  }

  /** `getJwt` on a snapshot of the storage area: the stored value when it
      is a string, `None` (`null`) when it is absent or of another type. */
  function StoredJwt(items: map<string, Json>, host: string): (r: Option<string>)
    ensures r.Some? <==> ToJwtStorageKey(host) in items && items[ToJwtStorageKey(host)].JString?
    ensures r.Some? ==> items[ToJwtStorageKey(host)] == JString(r.value)
  {
    var key := ToJwtStorageKey(host);
    if key in items && items[key].JString? then Some(items[key].s) else None
  }

  /** A saved token is read back, and saving it leaves every other host's
      token as it was. */
  lemma SaveThenGet(items: map<string, Json>, host: string, token: string, other: string)
    ensures StoredJwt(items[ToJwtStorageKey(host) := JString(token)], host) == Some(token)
    ensures other != host ==>
      StoredJwt(items[ToJwtStorageKey(host) := JString(token)], other) == StoredJwt(items, other)
  {
    if other != host {
      JwtKeyInjective(host, other);
    }
  }

  /** `browser.storage.local`: a mutable map from keys to stored values. */
  class LocalStorageArea {
    var items: map<string, Json>

    constructor(items: map<string, Json>)
      ensures this.items == items
    {
      this.items := items;
    }

    /** `saveJwt`: stores the token under the host's key, nothing else. */
    method SaveJwt(host: string, token: string)
      modifies this
      ensures items == old(items)[ToJwtStorageKey(host) := JString(token)]
      ensures StoredJwt(items, host) == Some(token)
      ensures forall other :: other != host ==> StoredJwt(items, other) == StoredJwt(old(items), other)
    {
      items := items[ToJwtStorageKey(host) := JString(token)];
      forall other | other != host
        ensures StoredJwt(items, other) == StoredJwt(old(items), other)
      {
        SaveThenGet(old(items), host, token, other);
      }
    }

    /** `getJwt`: reads the host's token without changing the storage. */
    method GetJwt(host: string) returns (r: Option<string>)
      ensures r == StoredJwt(items, host)
    {
      var key := ToJwtStorageKey(host);
      var value := if key in items then Some(items[key]) else None;
      r := if value.Some? && value.value.JString? then Some(value.value.s) else None;
    }
  }
}
