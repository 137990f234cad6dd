// Work queue keys: how a subscriber builds them and how the node pool reconcilers take them apart.
module Keys {
  import opened Wrappers
  import opened Text

  /** A nested resource is queued as "owner/resource"; a resource without an owner as itself. */
  function ResourceKey(owner: string, id: string): string {
    if owner == "" then id else owner + "/" + id
  }

  /** `strings.SplitN(key, "/", 2)`, with anything but two parts an error. */
  function SplitKey(key: string): (r: Option<(string, string)>)
    ensures r.Some? <==> '/' in key
    ensures r.Some? ==> IsKey(key, r.value)
  {
    var parts := SplitN2(key, '/');
    if |parts| != 2 then None else Some((parts[0], parts[1]))
  }

  ghost predicate IsKey(key: string, ids: (string, string)) {
    '/' !in ids.0 && key == ids.0 + ['/'] + ids.1
  }

  /** Splitting gives back both ids exactly when the owner is not empty and has no slash. */
  lemma KeyRoundTrip(owner: string, id: string)
    ensures SplitKey(ResourceKey(owner, id)) == Some((owner, id)) <==> owner != "" && '/' !in owner
  {
    if owner != "" {
      assert ResourceKey(owner, id) == owner + ['/'] + id;
      SplitN2Recovers(owner, '/', id);
    } else if SplitKey(id).Some? {
      var ids := SplitKey(id).value;
      assert |id| == |ids.0| + 1 + |ids.1|;
    }
  }

  /** Two nested resources share a key only if they are the same, as long as owners have no slash. */
  lemma KeysApart(owner: string, id: string, owner': string, id': string)
    requires owner != "" && owner' != "" && '/' !in owner && '/' !in owner'
    ensures ResourceKey(owner, id) == ResourceKey(owner', id') <==> owner == owner' && id == id'
  {
    KeyRoundTrip(owner, id);
    KeyRoundTrip(owner', id');
  }
}
