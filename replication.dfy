/** The replication-destinations document a node writes into its embedded
    database (`GetReplicationDestinations` in RavenDbWorker/WorkerRole.cs):
    one `{"Url":"http://<address>:<port>/"}` object per other role instance
    that exposes a "Replication" endpoint, in enumeration order, with no
    separator between the objects, inside a fixed header and footer.  The
    address is the peer's replication address; the port is always the
    current instance's own "Raven" port. */
module Replication {
  import opened Wrappers
  import Decimal
  import opened Strings

  /** A role instance as the topology service lists it: its id and the
      address of its "Replication" endpoint, if it has one. */
  datatype RoleInstance = RoleInstance(id: string, replicationAddress: Option<string>)

  const DestinationsKey: string := "Raven/Replication/Destinations"
  const Header: string := "{\"Id\":\"Raven/Replication/Destinations\",\"Destinations\":["
  const Footer: string := "]}"
  const UrlOpen: string := "{\"Url\":\""
  const UrlClose: string := "\"}"

  /** `string.Format("http://{0}:{1}/", address, port)`. */
  function Url(address: string, port: int): string {
    "http://" + address + ":" + Decimal.Format(port, 0) + "/"
  }

  /** Addresses of the destinations, in enumeration order: the instances
      other than `selfId` that have a replication endpoint. */
  function Peers(selfId: string, instances: seq<RoleInstance>): seq<string> {
    if instances == [] then []
    else
      var last := instances[|instances| - 1];
      Peers(selfId, instances[..|instances| - 1]) +
        (if last.id != selfId && last.replicationAddress.Some? then [last.replicationAddress.value] else [])
  }

  /** Ids of the other instances without a replication endpoint: each is
      reported as an error and skipped. */
  function Skipped(selfId: string, instances: seq<RoleInstance>): seq<string> {
    if instances == [] then []
    else
      var last := instances[|instances| - 1];
      Skipped(selfId, instances[..|instances| - 1]) +
        (if last.id != selfId && last.replicationAddress.None? then [last.id] else [])
  }

  function Urls(addresses: seq<string>, port: int): (urls: seq<string>)
    ensures |urls| == |addresses|
  {
    if addresses == [] then []
    else Urls(addresses[..|addresses| - 1], port) + [Url(addresses[|addresses| - 1], port)]
  }

  /** The destination objects, concatenated with no separator. */
  function Objects(urls: seq<string>): string {
    if urls == [] then []
    else Objects(urls[..|urls| - 1]) + (UrlOpen + urls[|urls| - 1] + UrlClose)
  }

  function DestinationsDocument(selfId: string, port: int, instances: seq<RoleInstance>): string {
    Header + Objects(Urls(Peers(selfId, instances), port)) + Footer
  }

  lemma PeersSnoc(selfId: string, xs: seq<RoleInstance>, x: RoleInstance)
    ensures Peers(selfId, xs + [x]) ==
      Peers(selfId, xs) + (if x.id != selfId && x.replicationAddress.Some? then [x.replicationAddress.value] else [])
    ensures Skipped(selfId, xs + [x]) ==
      Skipped(selfId, xs) + (if x.id != selfId && x.replicationAddress.None? then [x.id] else [])
  {
    assert (xs + [x])[..|xs|] == xs;
  }

  lemma UrlsSnoc(addresses: seq<string>, a: string, port: int)
    ensures Urls(addresses + [a], port) == Urls(addresses, port) + [Url(a, port)]
  {
    assert (addresses + [a])[..|addresses|] == addresses;
  }

  lemma ObjectsSnoc(urls: seq<string>, u: string)
    ensures Objects(urls + [u]) == Objects(urls) + (UrlOpen + u + UrlClose)
  {
    assert (urls + [u])[..|urls|] == urls;
  }

  /** One more instance adds its destination object, or its report, or
      nothing. */
  lemma RenderStep(selfId: string, done: seq<RoleInstance>, instance: RoleInstance, port: int)
    ensures Objects(Urls(Peers(selfId, done + [instance]), port)) ==
      Objects(Urls(Peers(selfId, done), port)) +
        (if instance.id != selfId && instance.replicationAddress.Some?
         then UrlOpen + Url(instance.replicationAddress.value, port) + UrlClose else [])
    ensures Skipped(selfId, done + [instance]) ==
      Skipped(selfId, done) + (if instance.id != selfId && instance.replicationAddress.None? then [instance.id] else [])
  {
    var peers := Peers(selfId, done);
    PeersSnoc(selfId, done, instance);
    if instance.id != selfId && instance.replicationAddress.Some? {
      var address := instance.replicationAddress.value;
      UrlsSnoc(peers, address, port);
      ObjectsSnoc(Urls(peers, port), Url(address, port));
    } else {
      assert Peers(selfId, done + [instance]) == peers;
    }
  }

  /** Builds the document with a loop over the instances, as the source
      does with its `StringBuilder`, and returns the ids it reported as
      lacking a replication endpoint. */
  method GetReplicationDestinations(selfId: string, ravenPort: int, instances: seq<RoleInstance>)
    returns (json: string, missing: seq<string>)
    ensures json == DestinationsDocument(selfId, ravenPort, instances)
    ensures missing == Skipped(selfId, instances)
  {
    var objects := "";
    missing := [];
    for i := 0 to |instances|
      invariant objects == Objects(Urls(Peers(selfId, instances[..i]), ravenPort))
      invariant missing == Skipped(selfId, instances[..i])
    {
      var instance := instances[i];
      assert instances[..i + 1] == instances[..i] + [instance];
      RenderStep(selfId, instances[..i], instance, ravenPort);
      if instance.id != selfId {
        match instance.replicationAddress
        case Some(address) =>
          objects := objects + (UrlOpen + Url(address, ravenPort) + UrlClose);
        case None =>
          missing := missing + [instance.id];
      }
    }
    assert instances[..|instances|] == instances;
    json := Header + objects + Footer;
  }

  // ---------------------------------------------------------------------
  // Which instances become destinations

  /** The destination list is built instance by instance: the part for a
      concatenation is the concatenation of the parts. */
  lemma {:induction false} PeersAppend(selfId: string, xs: seq<RoleInstance>, ys: seq<RoleInstance>)
    ensures Peers(selfId, xs + ys) == Peers(selfId, xs) + Peers(selfId, ys)
  {
    if ys != [] {
      var zs, y := ys[..|ys| - 1], ys[|ys| - 1];
      assert ys == zs + [y];
      assert xs + ys == (xs + zs) + [y];
      PeersAppend(selfId, xs, zs);
      PeersSnoc(selfId, xs + zs, y);
      PeersSnoc(selfId, zs, y);
    } else {
      assert xs + ys == xs;
    }
  }

  lemma {:induction false} SkippedAppend(selfId: string, xs: seq<RoleInstance>, ys: seq<RoleInstance>)
    ensures Skipped(selfId, xs + ys) == Skipped(selfId, xs) + Skipped(selfId, ys)
  {
    if ys != [] {
      var zs, y := ys[..|ys| - 1], ys[|ys| - 1];
      assert ys == zs + [y];
      assert xs + ys == (xs + zs) + [y];
      SkippedAppend(selfId, xs, zs);
      PeersSnoc(selfId, xs + zs, y);
      PeersSnoc(selfId, zs, y);
    } else {
      assert xs + ys == xs;
    }
  }

  /** The current instance contributes nothing, wherever it is listed and
      whatever endpoints it has. */
  lemma SelfExcluded(selfId: string, xs: seq<RoleInstance>, ys: seq<RoleInstance>, endpoint: Option<string>)
    ensures Peers(selfId, xs + [RoleInstance(selfId, endpoint)] + ys) == Peers(selfId, xs + ys)
    ensures Skipped(selfId, xs + [RoleInstance(selfId, endpoint)] + ys) == Skipped(selfId, xs + ys)
  {
    var me := [RoleInstance(selfId, endpoint)];
    PeersAppend(selfId, xs + me, ys);
    PeersAppend(selfId, xs, me);
    PeersAppend(selfId, xs, ys);
    SkippedAppend(selfId, xs + me, ys);
    SkippedAppend(selfId, xs, me);
    SkippedAppend(selfId, xs, ys);
    PeersSnoc(selfId, [], me[0]);
    assert [] + me == me;
  }

  /** Another instance contributes its one destination when it has a
      replication endpoint; without one it is skipped (and reported) and
      the build goes on. */
  lemma OtherInstance(selfId: string, xs: seq<RoleInstance>, ys: seq<RoleInstance>, peer: RoleInstance)
    requires peer.id != selfId
    ensures peer.replicationAddress.Some? ==>
      Peers(selfId, xs + [peer] + ys) == Peers(selfId, xs) + [peer.replicationAddress.value] + Peers(selfId, ys) &&
      Skipped(selfId, xs + [peer] + ys) == Skipped(selfId, xs + ys)
    ensures peer.replicationAddress.None? ==>
      Peers(selfId, xs + [peer] + ys) == Peers(selfId, xs + ys) &&
      Skipped(selfId, xs + [peer] + ys) == Skipped(selfId, xs) + [peer.id] + Skipped(selfId, ys)
  {
    var one := [peer];
    PeersAppend(selfId, xs + one, ys);
    PeersAppend(selfId, xs, one);
    PeersAppend(selfId, xs, ys);
    SkippedAppend(selfId, xs + one, ys);
    SkippedAppend(selfId, xs, one);
    SkippedAppend(selfId, xs, ys);
    PeersSnoc(selfId, [], peer);
    assert [] + one == one;
  }

  /** An address is a destination exactly when some instance other than
      the current one advertises it as its replication endpoint. */
  lemma {:induction false} PeersMembership(selfId: string, xs: seq<RoleInstance>, address: string)
    ensures address in Peers(selfId, xs) <==>
      exists i :: 0 <= i < |xs| && xs[i].id != selfId && xs[i].replicationAddress == Some(address)
  {
    if xs != [] {
      var init := xs[..|xs| - 1];
      PeersMembership(selfId, init, address);
      if exists i :: 0 <= i < |init| && init[i].id != selfId && init[i].replicationAddress == Some(address) {
        var i :| 0 <= i < |init| && init[i].id != selfId && init[i].replicationAddress == Some(address);
        assert xs[i] == init[i];
      }
      if exists i :: 0 <= i < |xs| && xs[i].id != selfId && xs[i].replicationAddress == Some(address) {
        var i :| 0 <= i < |xs| && xs[i].id != selfId && xs[i].replicationAddress == Some(address);
        if i < |init| {
          assert init[i] == xs[i];
        }
      }
    }
  }

  /** One destination per other instance with an endpoint, one report per
      other instance without: together they account for every instance but
      the current one. */
  lemma {:induction false} EveryOtherInstanceAccounted(selfId: string, xs: seq<RoleInstance>)
    ensures |Peers(selfId, xs)| + |Skipped(selfId, xs)| == |xs| - Occurrences(selfId, xs)
  {
    if xs != [] {
      EveryOtherInstanceAccounted(selfId, xs[..|xs| - 1]);
    }
  }

  /** How many instances carry the id `id`. */
  function Occurrences(id: string, xs: seq<RoleInstance>): (n: nat)
    ensures n <= |xs|
  {
    if xs == [] then 0
    else Occurrences(id, xs[..|xs| - 1]) + (if xs[|xs| - 1].id == id then 1 else 0)
  }

  // ---------------------------------------------------------------------
  // The rendered document

  /** Rendering distributes over concatenation with nothing in between:
      there is no separator between two destination objects. */
  lemma {:induction false} ObjectsAppend(us: seq<string>, vs: seq<string>)
    ensures Objects(us + vs) == Objects(us) + Objects(vs)
  {
    if vs != [] {
      var ws, v := vs[..|vs| - 1], vs[|vs| - 1];
      assert vs == ws + [v];
      assert us + vs == (us + ws) + [v];
      ObjectsAppend(us, ws);
      ObjectsSnoc(us + ws, v);
      ObjectsSnoc(ws, v);
    } else {
      assert us + vs == us;
    }
  }

  lemma {:induction false} UrlsAppend(as_: seq<string>, bs: seq<string>, port: int)
    ensures Urls(as_ + bs, port) == Urls(as_, port) + Urls(bs, port)
  {
    if bs != [] {
      var cs, b := bs[..|bs| - 1], bs[|bs| - 1];
      assert bs == cs + [b];
      assert as_ + bs == (as_ + cs) + [b];
      UrlsAppend(as_, cs, port);
      UrlsSnoc(as_ + cs, b, port);
      UrlsSnoc(cs, b, port);
    } else {
      assert as_ + bs == as_;
    }
  }

  /** Every URL carries its own peer's address and the given port. */
  lemma {:induction false} UrlsAt(addresses: seq<string>, port: int, k: nat)
    requires k < |addresses|
    ensures |Urls(addresses, port)| == |addresses|
    ensures Urls(addresses, port)[k] == Url(addresses[k], port)
  {
    var init := addresses[..|addresses| - 1];
    if k < |init| {
      UrlsAt(init, port, k);
    } else if init != [] {
      UrlsAt(init, port, 0);
    }
  }

  /** Position of the first '"' in `s`, or `|s|` when there is none. */
  function IndexOfQuote(s: string): (k: nat)
    ensures k <= |s|
    ensures forall j :: 0 <= j < k ==> s[j] != '"'
    ensures k < |s| ==> s[k] == '"'
  {
    if s == [] || s[0] == '"' then 0 else 1 + IndexOfQuote(s[1..])
  }

  /** Reads back a run of destination objects, each `{"Url":"<url>"}` with
      a URL free of '"', into the list of their URLs. */
  function ParseObjects(s: string): Option<seq<string>>
    decreases |s|
  {
    if s == [] then Some([])
    else if !StartsWith(s, UrlOpen) then None
    else
      var rest := s[|UrlOpen|..];
      var k := IndexOfQuote(rest);
      if !StartsWith(rest[k..], UrlClose) then None
      else
        match ParseObjects(rest[k + |UrlClose|..])
        case None => None
        case Some(urls) => Some([rest[..k]] + urls)
  }

  /** Reads back a whole destinations document into its URL list. */
  function ParseDocument(doc: string): Option<seq<string>> {
    if |Header| + |Footer| <= |doc| && StartsWith(doc, Header) && doc[|doc| - |Footer|..] == Footer
    then ParseObjects(doc[|Header|..|doc| - |Footer|])
    else None
  }

  lemma {:induction false} IndexOfQuoteAfter(u: string, t: string)
    requires '"' !in u && t != [] && t[0] == '"'
    ensures IndexOfQuote(u + t) == |u|
  {
    if u != [] {
      assert (u + t)[1..] == u[1..] + t;
      IndexOfQuoteAfter(u[1..], t);
    }
  }

  /** One object in front of the rest reads back to its URL in front of
      what the rest reads back to. */
  lemma ParseOneObject(u: string, tail: string)
    requires '"' !in u
    ensures ParseObjects(UrlOpen + u + UrlClose + tail) ==
      match ParseObjects(tail)
      case None => None
      case Some(urls) => Some([u] + urls)
  {
    var s := UrlOpen + u + UrlClose + tail;
    assert s[..|UrlOpen|] == UrlOpen;
    assert s != [] && StartsWith(s, UrlOpen);
    var rest := s[|UrlOpen|..];
    assert rest == u + (UrlClose + tail);
    IndexOfQuoteAfter(u, UrlClose + tail);
    assert rest[|u|..] == UrlClose + tail;
    assert (UrlClose + tail)[..|UrlClose|] == UrlClose;
    assert StartsWith(rest[|u|..], UrlClose);
    assert rest[..|u|] == u;
    assert rest[|u| + |UrlClose|..] == tail;
  }

  lemma {:induction false} ParseObjectsRoundTrip(urls: seq<string>)
    requires forall i :: 0 <= i < |urls| ==> '"' !in urls[i]
    ensures ParseObjects(Objects(urls)) == Some(urls)
  {
    if urls != [] {
      var u, us := urls[0], urls[1..];
      ObjectsAppend([u], us);
      assert [u] + us == urls;
      ObjectsSnoc([], u);
      assert [] + [u] == [u];
      assert Objects([u]) == UrlOpen + u + UrlClose;
      assert Objects(urls) == UrlOpen + u + UrlClose + Objects(us);
      assert '"' !in u;
      ParseOneObject(u, Objects(us));
      ParseObjectsRoundTrip(us);
    }
  }

  lemma NoQuoteInUrl(address: string, port: int)
    requires '"' !in address
    ensures '"' !in Url(address, port)
  {
  }

  /** The document reads back into exactly the URLs of the destinations,
      each carrying the current instance's port, provided no address
      contains a '"'. */
  lemma DocumentRoundTrip(selfId: string, port: int, xs: seq<RoleInstance>)
    requires forall i :: 0 <= i < |xs| && xs[i].replicationAddress.Some? ==> '"' !in xs[i].replicationAddress.value
    ensures StartsWith(DestinationsDocument(selfId, port, xs), Header)
    ensures ParseDocument(DestinationsDocument(selfId, port, xs)) == Some(Urls(Peers(selfId, xs), port))
  {
    var peers := Peers(selfId, xs);
    var urls := Urls(peers, port);
    forall k | 0 <= k < |urls|
      ensures '"' !in urls[k]
    {
      UrlsAt(peers, port, k);
      PeersMembership(selfId, xs, peers[k]);
      NoQuoteInUrl(peers[k], port);
    }
    ParseObjectsRoundTrip(urls);
    var body := Objects(urls);
    var doc := Header + body + Footer;
    assert doc[..|Header|] == Header;
    assert doc[|Header|..|doc| - |Footer|] == body;
    assert doc[|doc| - |Footer|..] == Footer;
  }

  /** Three instances A (current), B and C, B and C with replication
      endpoints: the document's destinations are exactly B's and C's, in
      that order, both on the current instance's port. */
  lemma ThreeInstances(a: string, b: string, c: string, addressB: string, addressC: string,
                       endpointA: Option<string>, port: int)
    requires a != b && a != c
    ensures var xs := [RoleInstance(a, endpointA), RoleInstance(b, Some(addressB)), RoleInstance(c, Some(addressC))];
      && Peers(a, xs) == [addressB, addressC]
      && Objects(Urls(Peers(a, xs), port)) ==
           (UrlOpen + Url(addressB, port) + UrlClose) + (UrlOpen + Url(addressC, port) + UrlClose)
  {
    ThreePeers(a, b, c, addressB, addressC, endpointA);
    TwoObjects(addressB, addressC, port);
  }

  lemma ThreePeers(a: string, b: string, c: string, addressB: string, addressC: string, endpointA: Option<string>)
    requires a != b && a != c
    ensures Peers(a, [RoleInstance(a, endpointA), RoleInstance(b, Some(addressB)), RoleInstance(c, Some(addressC))]) ==
      [addressB, addressC]
  {
    var xa, xb, xc := RoleInstance(a, endpointA), RoleInstance(b, Some(addressB)), RoleInstance(c, Some(addressC));
    PeersSnoc(a, [], xa);
    assert [] + [xa] == [xa];
    PeersSnoc(a, [xa], xb);
    PeersSnoc(a, [xa, xb], xc);
    assert [xa] + [xb] == [xa, xb] && [xa, xb] + [xc] == [xa, xb, xc];
  }

  lemma TwoObjects(addressB: string, addressC: string, port: int)
    ensures Objects(Urls([addressB, addressC], port)) ==
      (UrlOpen + Url(addressB, port) + UrlClose) + (UrlOpen + Url(addressC, port) + UrlClose)
  {
    TwoUrls(addressB, addressC, port);
    ObjectsPair(Url(addressB, port), Url(addressC, port));
  }

  lemma TwoUrls(addressB: string, addressC: string, port: int)
    ensures Urls([addressB, addressC], port) == [Url(addressB, port), Url(addressC, port)]
  {
    UrlsAt([addressB, addressC], port, 0);
    UrlsAt([addressB, addressC], port, 1);
  }

  lemma ObjectsPair(u: string, v: string)
    ensures Objects([u, v]) == (UrlOpen + u + UrlClose) + (UrlOpen + v + UrlClose)
  {
    ObjectsSnoc([], u);
    assert [] + [u] == [u];
    ObjectsSnoc([u], v);
    assert [u] + [v] == [u, v];
  }
}
