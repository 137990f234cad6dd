// Release channels, and finding a version in a release graph.
module Release {
  import opened Wrappers
  import opened Text

  const CHANNEL_GROUP := "candidate"

  function ChannelName(major: string, minor: string): string {
    CHANNEL_GROUP + "-" + major + "." + minor
  }

  /** The cluster adapter's channel; a version without a dot gets minor "0". */
  function BuildChannel(version: string): string {
    var parts := Split(version, '.');
    ChannelName(parts[0], if |parts| >= 2 then parts[1] else "0")
  }

  /** The node pool adapter's channel; a version without a dot is an error (None). */
  function BuildNodePoolChannel(version: string): Option<string> {
    var parts := Split(version, '.');
    if |parts| < 2 then None else Some(ChannelName(parts[0], parts[1]))
  }

  /** The two agree exactly on versions with at least two dot-separated parts. */
  lemma ChannelsAgree(version: string)
    ensures BuildNodePoolChannel(version) == Some(BuildChannel(version)) <==> '.' in version
  {
    if '.' !in version {
      SplitWhole(version, '.');
    } else {
      var cut := SplitN2(version, '.');
      assert version == cut[0] + ['.'] + cut[1];
      SplitHead(cut[0], '.', cut[1]);
    }
  }

  lemma ChannelNameInjective(a: string, m: string, b: string, n: string)
    requires '.' !in a && '.' !in b
    ensures ChannelName(a, m) == ChannelName(b, n) <==> a == b && m == n
  {
    var x, y := a + ['.'] + m, b + ['.'] + n;
    var prefix := CHANNEL_GROUP + "-";
    assert ChannelName(a, m) == prefix + x && ChannelName(b, n) == prefix + y;
    assert (prefix + x)[|prefix|..] == x && (prefix + y)[|prefix|..] == y;
    SplitN2Recovers(a, '.', m);
    SplitN2Recovers(b, '.', n);
  }

  function Minor(version: string): string {
    var parts := Split(version, '.');
    if |parts| >= 2 then parts[1] else "0"
  }

  /** Two versions share a channel exactly when their first two parts agree, a missing second part counting as "0". */
  lemma ChannelDependsOnFirstTwo(v: string, w: string)
    ensures BuildChannel(v) == BuildChannel(w) <==> Split(v, '.')[0] == Split(w, '.')[0] && Minor(v) == Minor(w)
  {
    hide ChannelName;
    assert Split(v, '.')[0] in Split(v, '.') && Split(w, '.')[0] in Split(w, '.');
    ChannelNameInjective(Split(v, '.')[0], Minor(v), Split(w, '.')[0], Minor(w));
  }

  datatype Node = Node(version: string, payload: string)

  /** The first node with the version, if any. */
  function Resolve(nodes: seq<Node>, version: string): (r: Option<Node>)
    ensures r.Some? ==> r.value in nodes && r.value.version == version
    ensures r.None? ==> forall n :: n in nodes ==> n.version != version
  {
    if nodes == [] then None
    else if nodes[0].version == version then Some(nodes[0])
    else Resolve(nodes[1..], version)
  }

  /** A version has a channel exactly if it has a dot. */
  lemma ChannelNeedsDot(version: string)
    ensures BuildNodePoolChannel(version).Some? <==> '.' in version
  {
    ChannelsAgree(version);
    if '.' !in version {
      SplitWhole(version, '.');
    }
  }

  /** The node scan. */
  method ScanGraph(nodes: seq<Node>, version: string) returns (r: Option<Node>)
    ensures r == Resolve(nodes, version)
  {
    for i := 0 to |nodes|
      invariant Resolve(nodes, version) == Resolve(nodes[i..], version)
    {
      if nodes[i].version == version {
        return Some(nodes[i]);
      }
      assert nodes[i..][1..] == nodes[i + 1..];
    }
    return None;
  }

  /** The first of several nodes with the version decides. */
  lemma {:induction false} ResolveIsFirst(nodes: seq<Node>, version: string, i: nat)
    requires i < |nodes| && nodes[i].version == version && forall j :: 0 <= j < i ==> nodes[j].version != version
    ensures Resolve(nodes, version) == Some(nodes[i])
  {
    if i > 0 {
      ResolveIsFirst(nodes[1..], version, i - 1);
    }
  }

  /** The channel of a version is named after its first two parts, whatever follows them; the second may be missing. */
  lemma ChannelOfVersion(major: string, minor: string, rest: string)
    requires '.' !in major && '.' !in minor
    ensures BuildChannel(major + ['.'] + minor) == "candidate-" + major + "." + minor
    ensures BuildChannel(major + ['.'] + (minor + ['.'] + rest)) == "candidate-" + major + "." + minor
    ensures BuildChannel(major) == "candidate-" + major + ".0"
  {
    hide Split;
    SplitWhole(major, '.');
    SplitHead(major, '.', minor);
    SplitWhole(minor, '.');
    SplitHead(major, '.', minor + ['.'] + rest);
    SplitHead(minor, '.', rest);
    NameOf(major, minor);
    NameOf(major, "0");
  }

  lemma NameOf(major: string, minor: string)
    ensures ChannelName(major, minor) == "candidate-" + major + "." + minor
  {
  }
}
