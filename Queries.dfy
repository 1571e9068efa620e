/** What `query()` asks for and what it resolves to, as functions of the dataset
    list: which datasets are fetched, under which key each response is filed, and
    the key-to-response hash built from the joined responses. */
module Queries {
  import opened Wrappers
  import opened Definitions
  import opened Decimal

  /** JavaScript truthiness of an optional string: present and not empty. */
  predicate Truthy(s: Option<string>) {
    s.Some? && s.value != ""
  }

  /** A dataset with a truthy `url` is fetched; any other one holds inline data. */
  predicate IsRemote(d: DatasetEntry) {
    Truthy(d.url)
  }

  /** `dataset.name || \`dataset${i}\``, where `i` indexes the full dataset list. */
  function KeyOf(d: DatasetEntry, i: nat): (k: string)
    ensures |k| > 0
    ensures !Truthy(d.name) ==> "dataset" <= k
  {
    if Truthy(d.name) then d.name.value else "dataset" + NatToString(i)
  }

  /** The argument handed to the remote query collaborator. */
  datatype Request = Request(url: string, params: Json)

  /** The request for a remote dataset; `createQueryParams` is the external
      parameter builder, applied to the dataset's `query`. */
  function RequestFor(d: DatasetEntry, createQueryParams: Option<Json> -> Json): (r: Request)
    requires IsRemote(d)
    ensures r.url != "" && Some(r.url) == d.url
  {
    Request(d.url.value, createQueryParams(d.query))
  }

  /** The positions, in list order, of the datasets that are fetched. */
  function RemoteIndices(ds: seq<DatasetEntry>): (r: seq<nat>)
    ensures forall k :: 0 <= k < |r| ==> r[k] < |ds| && IsRemote(ds[r[k]])
    ensures forall k, l :: 0 <= k < l < |r| ==> r[k] < r[l]
    ensures forall i :: 0 <= i < |ds| && IsRemote(ds[i]) ==> i in r
  {
    if ds == [] then []
    else
      var last := |ds| - 1;
      assert forall i :: 0 <= i < last ==> ds[..last][i] == ds[i];
      RemoteIndices(ds[..last]) + (if IsRemote(ds[last]) then [last] else [])
  }

  /** Extending the list by one dataset adds its index when it is remote. */
  lemma RemoteIndicesStep(ds: seq<DatasetEntry>, i: nat)
    requires i < |ds|
    ensures RemoteIndices(ds[..i + 1]) == RemoteIndices(ds[..i]) + (if IsRemote(ds[i]) then [i] else [])
  {
    assert ds[..i + 1][..i] == ds[..i];
  }

  /** The key of each request, in request order (the `names` array). */
  function RemoteKeys(ds: seq<DatasetEntry>): (keys: seq<string>)
    ensures |keys| == |RemoteIndices(ds)|
  {
    var idx := RemoteIndices(ds);
    seq(|idx|, k requires 0 <= k < |idx| => KeyOf(ds[idx[k]], idx[k]))
  }

  /** The hash filled by `responseHash[names[i]] = responses[i]` for i = 0, 1, ... */
  function Zip(names: seq<string>, responses: seq<Json>): (hash: map<string, Json>)
    requires |names| == |responses|
    ensures |hash| <= |names|
    ensures forall key :: key in hash ==> key in names
  {
    if names == [] then map[]
    else
      var last := |names| - 1;
      Zip(names[..last], responses[..last])[names[last] := responses[last]]
  }

  /** What `query()` resolves to once every request has answered. */
  function ResponseHash(ds: seq<DatasetEntry>, responses: seq<Json>): (hash: map<string, Json>)
    requires |responses| == |RemoteIndices(ds)|
    ensures |hash| <= |responses|
  {
    Zip(RemoteKeys(ds), responses)
  }

  /** What `Promise.all` over `count` requests can deliver: one response per
      request, in request order, or a rejection, which needs a request to fail. */
  predicate JoinFits(joined: Result<seq<Json>, Json>, count: nat) {
    match joined
    case Success(responses) => |responses| == count
    case Failure(_) => count > 0
  }

  // ---------------------------------------------------------------------------
  // The hash

  /** The hash has exactly the names as keys. */
  lemma {:induction false} ZipKeys(names: seq<string>, responses: seq<Json>)
    requires |names| == |responses|
    ensures forall key :: key in Zip(names, responses) <==> key in names
  {
    if names != [] {
      var last := |names| - 1;
      ZipKeys(names[..last], responses[..last]);
      assert names == names[..last] + [names[last]];
    }
  }

  /** A name that does not occur again later maps to its own response: later
      duplicates overwrite earlier ones. */
  lemma {:induction false} ZipLastWins(names: seq<string>, responses: seq<Json>, k: nat)
    requires |names| == |responses| && k < |names|
    requires forall j :: k < j < |names| ==> names[j] != names[k]
    ensures names[k] in Zip(names, responses)
    ensures Zip(names, responses)[names[k]] == responses[k]
  {
    var last := |names| - 1;
    if k < last {
      ZipLastWins(names[..last], responses[..last], k);
    }
  }

  /** With distinct names, the hash keeps every response. */
  lemma {:induction false} ZipDistinctSize(names: seq<string>, responses: seq<Json>)
    requires |names| == |responses|
    requires forall j, k :: 0 <= j < k < |names| ==> names[j] != names[k]
    ensures |Zip(names, responses)| == |names|
  {
    if names != [] {
      var last := |names| - 1;
      ZipDistinctSize(names[..last], responses[..last]);
      ZipKeys(names[..last], responses[..last]);
      assert names[last] !in names[..last];
    }
  }

  // ---------------------------------------------------------------------------
  // The hash in terms of the datasets

  /** The keys of the result are exactly the keys of the remote datasets. */
  lemma ResponseHashKeys(ds: seq<DatasetEntry>, responses: seq<Json>)
    requires |responses| == |RemoteIndices(ds)|
    ensures forall key :: key in ResponseHash(ds, responses) <==>
      exists i :: 0 <= i < |ds| && IsRemote(ds[i]) && KeyOf(ds[i], i) == key
  {
    var idx := RemoteIndices(ds);
    var keys := RemoteKeys(ds);
    ZipKeys(keys, responses);
    forall key
      ensures key in keys <==> exists i :: 0 <= i < |ds| && IsRemote(ds[i]) && KeyOf(ds[i], i) == key
    {
      if key in keys {
        var k :| 0 <= k < |keys| && keys[k] == key;
        assert IsRemote(ds[idx[k]]) && KeyOf(ds[idx[k]], idx[k]) == key;
      }
      if exists i :: 0 <= i < |ds| && IsRemote(ds[i]) && KeyOf(ds[i], i) == key {
        var i :| 0 <= i < |ds| && IsRemote(ds[i]) && KeyOf(ds[i], i) == key;
        var k :| 0 <= k < |idx| && idx[k] == i;
        assert keys[k] == key;
      }
    }
  }

  /** A remote dataset whose key no later remote dataset reuses gets the response
      of its own request: the request issued for it, at position `k`. */
  lemma ResponseHashAt(ds: seq<DatasetEntry>, responses: seq<Json>, i: nat)
    requires |responses| == |RemoteIndices(ds)|
    requires i < |ds| && IsRemote(ds[i])
    requires forall j :: i < j < |ds| && IsRemote(ds[j]) ==> KeyOf(ds[j], j) != KeyOf(ds[i], i)
    ensures exists k ::
      && 0 <= k < |responses|
      && RemoteIndices(ds)[k] == i
      && KeyOf(ds[i], i) in ResponseHash(ds, responses)
      && ResponseHash(ds, responses)[KeyOf(ds[i], i)] == responses[k]
  {
    var idx := RemoteIndices(ds);
    var keys := RemoteKeys(ds);
    var k :| 0 <= k < |idx| && idx[k] == i;
    forall j | k < j < |keys|
      ensures keys[j] != keys[k]
    {
      assert idx[j] > i;
    }
    ZipLastWins(keys, responses, k);
  }

  /** When every remote dataset is unnamed, the positional keys never collide and
      the result holds one entry per request. */
  lemma UnnamedResponsesAllKept(ds: seq<DatasetEntry>, responses: seq<Json>)
    requires |responses| == |RemoteIndices(ds)|
    requires forall i :: 0 <= i < |ds| && IsRemote(ds[i]) ==> !Truthy(ds[i].name)
    ensures |ResponseHash(ds, responses)| == |responses|
  {
    var idx := RemoteIndices(ds);
    var keys := RemoteKeys(ds);
    forall j, k | 0 <= j < k < |keys|
      ensures keys[j] != keys[k]
    {
      if keys[j] == keys[k] {
        var p, q := NatToString(idx[j]), NatToString(idx[k]);
        assert ("dataset" + p)[7..] == p;
        assert ("dataset" + q)[7..] == q;
        NatToStringInjective(idx[j], idx[k]);
      }
    }
    ZipDistinctSize(keys, responses);
  }

  /** With no remote dataset nothing is fetched and the result is empty. */
  lemma NoRemoteNoKeys(ds: seq<DatasetEntry>)
    requires forall i :: 0 <= i < |ds| ==> !IsRemote(ds[i])
    ensures RemoteIndices(ds) == []
    ensures ResponseHash(ds, []) == map[]
  {
  }

  // ---------------------------------------------------------------------------
  // Worked cases

  /** Two remote datasets named "a" and "b" resolve to `{ a: r1, b: r2 }`. */
  lemma TwoNamedDatasets(r1: Json, r2: Json)
    ensures var ds := [DatasetEntry(Some("a"), Some("u1"), None, map[]), DatasetEntry(Some("b"), Some("u2"), None, map[])];
      |RemoteIndices(ds)| == 2 && ResponseHash(ds, [r1, r2]) == map["a" := r1, "b" := r2]
  {
    var ds := [DatasetEntry(Some("a"), Some("u1"), None, map[]), DatasetEntry(Some("b"), Some("u2"), None, map[])];
    assert ds[..1] == [ds[0]] && [ds[0]][..0] == [];
    assert RemoteIndices(ds) == [0, 1];
    var keys := RemoteKeys(ds);
    assert keys[0] == "a" && keys[1] == "b";
    assert keys == ["a", "b"];
    ZipTwo("a", "b", r1, r2);
  }

  /** The fallback key counts inline datasets too: an unnamed remote dataset after
      one inline dataset is filed under "dataset1". */
  lemma FallbackKeyUsesFullIndex(r: Json)
    ensures var ds := [DatasetEntry(None, None, None, map[]), DatasetEntry(None, Some("u"), None, map[])];
      |RemoteIndices(ds)| == 1 && ResponseHash(ds, [r]) == map["dataset1" := r]
  {
    var ds := [DatasetEntry(None, None, None, map[]), DatasetEntry(None, Some("u"), None, map[])];
    assert ds[..1] == [ds[0]] && [ds[0]][..0] == [];
    assert RemoteIndices(ds) == [1];
    assert NatToString(1) == "1";
    var keys := RemoteKeys(ds);
    assert keys[0] == "dataset1";
    assert keys == ["dataset1"];
    ZipOne("dataset1", r);
  }

  /** A dataset named like another's fallback key collides with it, and the later
      response overwrites the earlier one. */
  lemma FallbackKeyCollision(r1: Json, r2: Json)
    ensures var ds := [DatasetEntry(Some("dataset1"), Some("u1"), None, map[]), DatasetEntry(None, Some("u2"), None, map[])];
      |RemoteIndices(ds)| == 2 && ResponseHash(ds, [r1, r2]) == map["dataset1" := r2]
  {
    var ds := [DatasetEntry(Some("dataset1"), Some("u1"), None, map[]), DatasetEntry(None, Some("u2"), None, map[])];
    assert ds[..1] == [ds[0]] && [ds[0]][..0] == [];
    assert RemoteIndices(ds) == [0, 1];
    assert NatToString(1) == "1";
    var keys := RemoteKeys(ds);
    assert keys[0] == "dataset1" && keys[1] == "dataset1";
    assert keys == ["dataset1", "dataset1"];
    ZipTwo("dataset1", "dataset1", r1, r2);
  }

  lemma ZipTwo(a: string, b: string, r1: Json, r2: Json)
    ensures Zip([a, b], [r1, r2]) == map[a := r1][b := r2]
  {
    ZipOne(a, r1);
    assert [a, b][..1] == [a] && [r1, r2][..1] == [r1];
    assert Zip([a, b], [r1, r2]) == Zip([a], [r1])[b := r2];
  }

  lemma ZipOne(a: string, r: Json)
    ensures Zip([a], [r]) == map[a := r]
  {
  }
}
