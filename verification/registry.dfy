/** The peer registry: an insertion-ordered list of peer records that the
    engine looks up by endpoint id. Lookups take the first record with the
    id, as Kotlin's `indexOfFirst` and `firstOrNull` do. */
module Registry {
  import opened Text

  datatype Peer = Peer(id: string, name: string, connected: bool, isSimulated: bool)

  /** How many characters of an endpoint id stand in for an unknown name. */
  const FallbackNameLength: nat := 8

  predicate UniqueIds(peers: seq<Peer>) {
    forall i, j :: 0 <= i < j < |peers| ==> peers[i].id != peers[j].id
  }

  predicate HasId(peers: seq<Peer>, id: string) {
    exists j :: 0 <= j < |peers| && peers[j].id == id
  }

  /** `indexOfFirst { it.id == id }`, with `|peers|` in place of -1. */
  function PeerIndex(peers: seq<Peer>, id: string): (i: nat)
    ensures i <= |peers|
    ensures i < |peers| ==> peers[i].id == id
    ensures forall j :: 0 <= j < i ==> peers[j].id != id
    ensures i == |peers| <==> !HasId(peers, id)
  {
    if |peers| == 0 || peers[0].id == id then 0 else 1 + PeerIndex(peers[1..], id)
  }

  /** An index with the first-match property is the one `PeerIndex` finds. */
  lemma PeerIndexIs(peers: seq<Peer>, id: string, i: nat)
    requires i <= |peers|
    requires i < |peers| ==> peers[i].id == id
    requires forall j :: 0 <= j < i ==> peers[j].id != id
    ensures PeerIndex(peers, id) == i
  {
  }

  /** `firstOrNull { it.id == id }`. */
  function Find(peers: seq<Peer>, id: string): (r: Option<Peer>)
    ensures r.Some? <==> HasId(peers, id)
    ensures r.Some? ==> r.value.id == id && r.value in peers
    ensures r.Some? ==> exists i :: 0 <= i < |peers| && peers[i] == r.value && forall j :: 0 <= j < i ==> peers[j].id != id
    ensures UniqueIds(peers) ==> forall j :: 0 <= j < |peers| && peers[j].id == id ==> r == Some(peers[j])
  {
    var i := PeerIndex(peers, id);
    if i < |peers| then Some(peers[i]) else None
  }

  /** Display name of an endpoint: the registered name, or the first eight
      characters of the id when no record has that id. */
  function PeerName(peers: seq<Peer>, id: string): (r: string)
    ensures HasId(peers, id) ==> r == Find(peers, id).value.name
    ensures UniqueIds(peers) ==> forall j :: 0 <= j < |peers| && peers[j].id == id ==> r == peers[j].name
    ensures !HasId(peers, id) ==> r == Take(id, FallbackNameLength)
  {
    match Find(peers, id)
    case Some(p) => p.name
    case None => Take(id, FallbackNameLength)
  }

  /** Replaces name, connection flag and origin of the record with `id` in
      place, or appends a new record when there is none. */
  function Upsert(peers: seq<Peer>, id: string, name: string, connected: bool, simulated: bool): (r: seq<Peer>)
    ensures HasId(peers, id) ==>
      && |r| == |peers|
      && r[PeerIndex(peers, id)] == Peer(id, name, connected, simulated)
      && forall j :: 0 <= j < |peers| && j != PeerIndex(peers, id) ==> r[j] == peers[j]
    ensures !HasId(peers, id) ==>
      && |r| == |peers| + 1
      && r[..|peers|] == peers
      && r[|peers|] == Peer(id, name, connected, simulated)
    ensures forall j :: 0 <= j < |peers| ==> r[j].id == peers[j].id
    ensures UniqueIds(peers) ==> UniqueIds(r)
    ensures NoSimulated(peers) && !simulated ==> NoSimulated(r)
    ensures !simulated ==> SimulatedFrom(peers, r)
  {
    var i := PeerIndex(peers, id);
    if i < |peers| then peers[i := peers[i].(name := name, connected := connected, isSimulated := simulated)]
    else peers + [Peer(id, name, connected, simulated)]
  }

  /** After an upsert the registry answers for `id` with the new record and
      for every other id exactly as before. */
  lemma FindAfterUpsert(peers: seq<Peer>, id: string, name: string, connected: bool, simulated: bool, x: string)
    ensures Find(Upsert(peers, id, name, connected, simulated), x)
         == if x == id then Some(Peer(id, name, connected, simulated)) else Find(peers, x)
  {
    var r := Upsert(peers, id, name, connected, simulated);
    if x == id {
      PeerIndexIs(r, x, PeerIndex(peers, x));
    } else if HasId(peers, x) {
      PeerIndexIs(r, x, PeerIndex(peers, x));
    } else {
      assert forall j :: 0 <= j < |r| ==> r[j].id != x;
    }
  }

  /** Clears the connection flag of the record with `id`, if any. */
  function MarkDisconnected(peers: seq<Peer>, id: string): (r: seq<Peer>)
    ensures |r| == |peers|
    ensures !HasId(peers, id) ==> r == peers
    ensures HasId(peers, id) ==>
      && r[PeerIndex(peers, id)] == peers[PeerIndex(peers, id)].(connected := false)
      && forall j :: 0 <= j < |peers| && j != PeerIndex(peers, id) ==> r[j] == peers[j]
    ensures forall j :: 0 <= j < |peers| ==> r[j].id == peers[j].id
    ensures UniqueIds(peers) ==> UniqueIds(r)
    ensures NoSimulated(peers) ==> NoSimulated(r)
    ensures SimulatedFrom(peers, r)
  {
    var i := PeerIndex(peers, id);
    if i < |peers| then peers[i := peers[i].(connected := false)] else peers
  }

  /** After a disconnect the record for `id` differs only in its flag, and
      every other id resolves as before. */
  lemma FindAfterMarkDisconnected(peers: seq<Peer>, id: string, x: string)
    ensures Find(MarkDisconnected(peers, id), x)
         == if x == id && HasId(peers, id) then Some(Find(peers, x).value.(connected := false)) else Find(peers, x)
  {
    var r := MarkDisconnected(peers, id);
    PeerIndexIs(r, x, PeerIndex(peers, x));
  }

  predicate NoSimulated(peers: seq<Peer>) {
    forall p :: p in peers ==> !p.isSimulated
  }

  /** Every simulated record of `after` stands for a simulated record of
      `before` with the same id: no step between them made a real peer
      simulated or added a simulated one. */
  predicate SimulatedFrom(before: seq<Peer>, after: seq<Peer>) {
    forall p :: p in after && p.isSimulated ==> exists q :: q in before && q.id == p.id && q.isSimulated
  }

  /** `filter { it.isSimulated }`. */
  function SimulatedPeers(peers: seq<Peer>): (r: seq<Peer>)
    ensures forall p :: p in r <==> p in peers && p.isSimulated
    ensures |r| <= |peers|
  {
    if |peers| == 0 then []
    else (if peers[0].isSimulated then [peers[0]] else []) + SimulatedPeers(peers[1..])
  }

  /** The tail of a registry with unique ids has unique ids, none of them
      the head's. */
  lemma UniqueTail(peers: seq<Peer>)
    requires |peers| > 0
    requires UniqueIds(peers)
    ensures UniqueIds(peers[1..])
    ensures forall p :: p in peers[1..] ==> p.id != peers[0].id
  {
    forall i, j | 0 <= i < j < |peers| - 1 ensures peers[1..][i].id != peers[1..][j].id {
      assert peers[1..][i] == peers[i + 1] && peers[1..][j] == peers[j + 1];
    }
    forall p | p in peers[1..] ensures p.id != peers[0].id {
      var k :| 0 <= k < |peers[1..]| && peers[1..][k] == p;
      assert peers[k + 1] == p;
    }
  }

  /** Putting a record in front of a registry with unique ids keeps them
      unique when no record already has its id. */
  lemma UniqueCons(p: Peer, rest: seq<Peer>)
    requires UniqueIds(rest)
    requires forall q :: q in rest ==> q.id != p.id
    ensures UniqueIds([p] + rest)
  {
    var r := [p] + rest;
    forall i, j | 0 <= i < j < |r| ensures r[i].id != r[j].id {
      if i == 0 { assert r[j] in rest; } else { assert r[i] == rest[i - 1] && r[j] == rest[j - 1]; }
    }
  }

  /** The properties of `RemoveSimulated` carry over from the tail to the
      whole registry when the head is kept or dropped by its origin. */
  lemma RemoveStep(peers: seq<Peer>, rest: seq<Peer>, r: seq<Peer>)
    requires |peers| > 0
    requires r == if peers[0].isSimulated then rest else [peers[0]] + rest
    requires forall p :: p in rest <==> p in peers[1..] && !p.isSimulated
    requires |rest| + |SimulatedPeers(peers[1..])| == |peers| - 1
    requires NoSimulated(peers[1..]) ==> rest == peers[1..]
    requires UniqueIds(peers[1..]) ==> UniqueIds(rest)
    ensures forall p :: p in r <==> p in peers && !p.isSimulated
    ensures |r| + |SimulatedPeers(peers)| == |peers|
    ensures NoSimulated(peers) ==> r == peers
    ensures UniqueIds(peers) ==> UniqueIds(r)
  {
    assert peers == [peers[0]] + peers[1..];
    assert forall q :: q in peers <==> q == peers[0] || q in peers[1..];
    if UniqueIds(peers) {
      UniqueTail(peers);
      if !peers[0].isSimulated {
        UniqueCons(peers[0], rest);
      }
    }
  }

  /** `removeAll { it.isSimulated }`: keeps exactly the real peers. */
  function RemoveSimulated(peers: seq<Peer>): (r: seq<Peer>)
    ensures forall p :: p in r <==> p in peers && !p.isSimulated
    ensures |r| + |SimulatedPeers(peers)| == |peers|
    ensures NoSimulated(peers) ==> r == peers
    ensures UniqueIds(peers) ==> UniqueIds(r)
  {
    if |peers| == 0 then []
    else
      var rest := RemoveSimulated(peers[1..]);
      var r := if peers[0].isSimulated then rest else [peers[0]] + rest;
      RemoveStep(peers, rest, r);
      r
  }

  /** Ids of the peers a real-mode public send goes to: connected and not
      simulated, in registry order. */
  function ConnectedRealIds(peers: seq<Peer>): (ids: seq<string>)
    ensures forall x :: x in ids <==> exists p :: p in peers && p.id == x && p.connected && !p.isSimulated
    ensures |ids| <= |peers|
  {
    if |peers| == 0 then []
    else
      var p := peers[0];
      var rest := ConnectedRealIds(peers[1..]);
      assert forall q :: q in peers <==> q == p || q in peers[1..] by {
        assert peers == [p] + peers[1..];
      }
      (if p.connected && !p.isSimulated then [p.id] else []) + rest
  }
}
