// How a refresh assigns identifiers to the nodes of the new content
// (src-tauri/src/application.rs:1279-1309).
module RefreshIds {
  import opened Text
  import opened SourceLibrary

  // The source's current identifiers under one update key, in library order.
  function OldIds(order: seq<NodeId>, nodes: map<NodeId, Stored>, source: Token, key: string): seq<NodeId> {
    if order == [] then []
    else
      var id := order[|order| - 1];
      OldIds(order[..|order| - 1], nodes, source, key)
      + if id in nodes && nodes[id].sourceId == source && nodes[id].node.updateKey == key then [id] else []
  }

  function Count(nodes: seq<Parsed>, key: string): nat {
    if nodes == [] then 0
    else Count(nodes[..|nodes| - 1], key) + if nodes[|nodes| - 1].updateKey == key then 1 else 0
  }

  // The new node takes over an old identifier when its key still has one left.
  function Reuses(prior: string -> seq<NodeId>, before: seq<Parsed>, node: Parsed): bool {
    Count(before, node.updateKey) < |prior(node.updateKey)|
  }

  // Random draws consumed by the nodes.
  function Draws(prior: string -> seq<NodeId>, nodes: seq<Parsed>): nat {
    if nodes == [] then 0
    else
      var init, last := nodes[..|nodes| - 1], nodes[|nodes| - 1];
      Draws(prior, init) + if Reuses(prior, init, last) then 0 else 1
  }

  function AssignedId(prior: string -> seq<NodeId>, before: seq<Parsed>, node: Parsed, source: Token, draw: nat -> Token): NodeId {
    if Reuses(prior, before, node) then prior(node.updateKey)[Count(before, node.updateKey)]
    else Owned(source, draw(Draws(prior, before)))
  }

  function AssignedIds(prior: string -> seq<NodeId>, nodes: seq<Parsed>, source: Token, draw: nat -> Token): seq<NodeId> {
    seq(|nodes|, i requires 0 <= i < |nodes| => AssignedId(prior, nodes[..i], nodes[i], source, draw))
  }

  function Queue(queues: map<string, seq<NodeId>>, key: string): seq<NodeId> {
    if key in queues then queues[key] else []
  }

  function CountOf(order: seq<NodeId>, nodes: map<NodeId, Stored>, source: Token): nat {
    if order == [] then 0
    else
      var id := order[|order| - 1];
      CountOf(order[..|order| - 1], nodes, source) + if id in nodes && nodes[id].sourceId == source then 1 else 0
  }

  // The places in the library of the nodes of the source, and of those under the key.
  ghost function PlacesOf(order: seq<NodeId>, nodes: map<NodeId, Stored>, source: Token): set<nat> {
    set i | 0 <= i < |order| && order[i] in nodes && nodes[order[i]].sourceId == source
  }

  ghost function PlacesUnder(order: seq<NodeId>, nodes: map<NodeId, Stored>, source: Token, key: string): set<nat> {
    set i | 0 <= i < |order| && order[i] in nodes && nodes[order[i]].sourceId == source && nodes[order[i]].node.updateKey == key
  }

  ghost predicate Before(order: seq<NodeId>, a: NodeId, b: NodeId) {
    exists p, q :: 0 <= p < q < |order| && order[p] == a && order[q] == b
  }

  // The node is of the source and has the key.
  predicate Held(nodes: map<NodeId, Stored>, source: Token, key: string, id: NodeId) {
    id in nodes && nodes[id].sourceId == source && nodes[id].node.updateKey == key
  }

  ghost predicate AllHeld(ids: seq<NodeId>, order: seq<NodeId>, held: NodeId -> bool) {
    forall i :: 0 <= i < |ids| ==> ids[i] in order && held(ids[i])
  }

  ghost predicate HoldsAll(ids: seq<NodeId>, order: seq<NodeId>, held: NodeId -> bool) {
    forall p :: 0 <= p < |order| && held(order[p]) ==> order[p] in ids
  }

  ghost predicate InOrder(ids: seq<NodeId>, order: seq<NodeId>) {
    forall i, j :: 0 <= i < j < |ids| ==> Before(order, ids[i], ids[j])
  }

  // The identifiers of exactly the source's nodes under the key, in library order.
  ghost predicate Lists(ids: seq<NodeId>, order: seq<NodeId>, nodes: map<NodeId, Stored>, source: Token, key: string) {
    && |ids| == |PlacesUnder(order, nodes, source, key)|
    && AllHeld(ids, order, id => Held(nodes, source, key, id)) && HoldsAll(ids, order, id => Held(nodes, source, key, id))
    && InOrder(ids, order)
  }

  lemma {:induction false} OldIdsList(order: seq<NodeId>, nodes: map<NodeId, Stored>, source: Token, key: string)
    ensures Lists(OldIds(order, nodes, source, key), order, nodes, source, key)
  {
    if order != [] {
      var n := |order| - 1;
      OldIdsList(order[..n], nodes, source, key);
      var ids, held := OldIds(order[..n], nodes, source, key), (id: NodeId) => Held(nodes, source, key, id);
      assert AllHeld(ids, order[..n], held) && HoldsAll(ids, order[..n], held);
      AllHeldGrows(ids, order, held);
      HoldsAllGrows(ids, order, held);
      InOrderGrows(ids, order);
      PlacesGrow(order, nodes, source, key);
      assert ids + [] == ids;
      assert AllHeld(OldIds(order, nodes, source, key), order, held) && HoldsAll(OldIds(order, nodes, source, key), order, held);
    }
  }

  lemma BeforeLater(order: seq<NodeId>, a: NodeId, b: NodeId)
    requires order != [] && Before(order[..|order| - 1], a, b)
    ensures Before(order, a, b)
  {
    var p, q :| 0 <= p < q < |order[..|order| - 1]| && order[..|order| - 1][p] == a && order[..|order| - 1][q] == b;
    assert order[p] == a && order[q] == b;
  }

  lemma BeforeLast(order: seq<NodeId>, a: NodeId)
    requires order != [] && a in order[..|order| - 1]
    ensures Before(order, a, order[|order| - 1])
  {
    var p :| 0 <= p < |order| - 1 && order[..|order| - 1][p] == a;
    assert order[p] == a;
  }

  lemma AllHeldGrows(ids: seq<NodeId>, order: seq<NodeId>, held: NodeId -> bool)
    requires order != [] && AllHeld(ids, order[..|order| - 1], held)
    ensures AllHeld(ids, order, held)
    ensures held(order[|order| - 1]) ==> AllHeld(ids + [order[|order| - 1]], order, held)
  {}

  lemma HoldsAllGrows(ids: seq<NodeId>, order: seq<NodeId>, held: NodeId -> bool)
    requires order != [] && HoldsAll(ids, order[..|order| - 1], held)
    ensures if held(order[|order| - 1]) then HoldsAll(ids + [order[|order| - 1]], order, held) else HoldsAll(ids, order, held)
  {
    var n := |order| - 1;
    forall p | 0 <= p < n && held(order[p]) ensures order[p] in ids { assert order[..n][p] == order[p]; }
    assert (ids + [order[n]])[|ids|] == order[n];
  }

  lemma InOrderGrows(ids: seq<NodeId>, order: seq<NodeId>)
    requires order != [] && InOrder(ids, order[..|order| - 1])
    requires forall i :: 0 <= i < |ids| ==> ids[i] in order[..|order| - 1]
    ensures InOrder(ids, order) && InOrder(ids + [order[|order| - 1]], order)
  {
    forall i, j | 0 <= i < j < |ids| ensures Before(order, ids[i], ids[j]) { BeforeLater(order, ids[i], ids[j]); }
    forall i | 0 <= i < |ids| ensures Before(order, ids[i], order[|order| - 1]) { BeforeLast(order, ids[i]); }
  }

  lemma PlacesGrow(order: seq<NodeId>, nodes: map<NodeId, Stored>, source: Token, key: string)
    requires order != []
    ensures var n := |order| - 1;
            |PlacesUnder(order, nodes, source, key)|
            == |PlacesUnder(order[..n], nodes, source, key)| + if Held(nodes, source, key, order[n]) then 1 else 0
  {
    var n := |order| - 1;
    assert PlacesUnder(order, nodes, source, key)
           == PlacesUnder(order[..n], nodes, source, key) + if Held(nodes, source, key, order[n]) then {n} else {};
  }

  lemma {:induction false} CountsPlaces(order: seq<NodeId>, nodes: map<NodeId, Stored>, source: Token)
    ensures CountOf(order, nodes, source) == |PlacesOf(order, nodes, source)|
  {
    if order != [] {
      var n := |order| - 1;
      CountsPlaces(order[..n], nodes, source);
      assert PlacesOf(order, nodes, source)
             == PlacesOf(order[..n], nodes, source) + if order[n] in nodes && nodes[order[n]].sourceId == source then {n} else {};
    }
  }

  // The queues of identifiers by update key, and the number of nodes of the source.
  method CollectIds(order: seq<NodeId>, nodes: map<NodeId, Stored>, source: Token)
    returns (queues: map<string, seq<NodeId>>, count: nat)
    ensures forall key :: Queue(queues, key) == OldIds(order, nodes, source, key)
    ensures count == CountOf(order, nodes, source)
    ensures forall key :: Lists(Queue(queues, key), order, nodes, source, key)
    ensures count == |PlacesOf(order, nodes, source)|
  {
    queues, count := map[], 0;
    for i := 0 to |order|
      invariant forall key :: Queue(queues, key) == OldIds(order[..i], nodes, source, key)
      invariant count == CountOf(order[..i], nodes, source)
    {
      assert order[..i + 1][..i] == order[..i];
      var id := order[i];
      if id in nodes && nodes[id].sourceId == source {
        count := count + 1;
        var key := nodes[id].node.updateKey;
        queues := queues[key := Queue(queues, key) + [id]];
      }
    }
    assert order[..|order|] == order;
    forall key ensures Lists(Queue(queues, key), order, nodes, source, key) { QueueLists(queues, order, nodes, source, key); }
    CountsPlaces(order, nodes, source);
  }

  lemma QueueLists(queues: map<string, seq<NodeId>>, order: seq<NodeId>, nodes: map<NodeId, Stored>, source: Token, key: string)
    requires Queue(queues, key) == OldIds(order, nodes, source, key)
    ensures Lists(Queue(queues, key), order, nodes, source, key)
  {
    OldIdsList(order, nodes, source, key);
  }

  function Min(a: nat, b: nat): nat { if a < b then a else b }

  // The queues left after the nodes were served.
  ghost predicate Remaining(queues: map<string, seq<NodeId>>, prior: string -> seq<NodeId>, served: seq<Parsed>) {
    forall key :: Queue(queues, key) == prior(key)[Min(Count(served, key), |prior(key)|)..]
  }

  lemma ServeId(queues: map<string, seq<NodeId>>, prior: string -> seq<NodeId>, served: seq<Parsed>, node: Parsed,
                source: Token, draw: nat -> Token)
    requires Remaining(queues, prior, served)
    ensures Queue(queues, node.updateKey) != [] <==> Reuses(prior, served, node)
    ensures AssignedId(prior, served, node, source, draw)
            == var queue := Queue(queues, node.updateKey);
               if queue != [] then queue[0] else Owned(source, draw(Draws(prior, served)))
  {}

  lemma ServeQueues(queues: map<string, seq<NodeId>>, prior: string -> seq<NodeId>, served: seq<Parsed>, node: Parsed)
    requires Remaining(queues, prior, served)
    ensures var queue := Queue(queues, node.updateKey);
            Remaining(if queue != [] then queues[node.updateKey := queue[1..]] else queues, prior, served + [node])
  {
    var longer := served + [node];
    assert longer[..|served|] == served;
  }

  // The first `i` nodes are served.
  ghost predicate Served(queues: map<string, seq<NodeId>>, ids: seq<NodeId>, drawn: nat, prior: string -> seq<NodeId>,
                         nodes: seq<Parsed>, source: Token, draw: nat -> Token, i: nat)
    requires i <= |nodes|
  {
    && Remaining(queues, prior, nodes[..i])
    && ids == AssignedIds(prior, nodes[..i], source, draw) && drawn == Draws(prior, nodes[..i])
  }

  lemma ServeOne(queues: map<string, seq<NodeId>>, ids: seq<NodeId>, drawn: nat, prior: string -> seq<NodeId>,
                 nodes: seq<Parsed>, source: Token, draw: nat -> Token, i: nat)
    requires i < |nodes| && Served(queues, ids, drawn, prior, nodes, source, draw, i)
    ensures var queue := Queue(queues, nodes[i].updateKey);
            if queue != [] then
              Served(queues[nodes[i].updateKey := queue[1..]], ids + [queue[0]], drawn, prior, nodes, source, draw, i + 1)
            else
              Served(queues, ids + [Owned(source, draw(drawn))], drawn + 1, prior, nodes, source, draw, i + 1)
  {
    AssignedPush(prior, nodes, i, source, draw);
    ServeId(queues, prior, nodes[..i], nodes[i], source, draw);
    ServeQueues(queues, prior, nodes[..i], nodes[i]);
    assert nodes[..i + 1] == nodes[..i] + [nodes[i]];
  }

  lemma ServedNone(queues: map<string, seq<NodeId>>, prior: string -> seq<NodeId>, nodes: seq<Parsed>, source: Token,
                   draw: nat -> Token)
    requires forall key :: Queue(queues, key) == prior(key)
    ensures Served(queues, [], 0, prior, nodes, source, draw, 0)
  {
    assert nodes[..0] == [];
  }

  lemma ServedAll(queues: map<string, seq<NodeId>>, ids: seq<NodeId>, drawn: nat, prior: string -> seq<NodeId>,
                  nodes: seq<Parsed>, source: Token, draw: nat -> Token)
    requires Served(queues, ids, drawn, prior, nodes, source, draw, |nodes|)
    ensures ids == AssignedIds(prior, nodes, source, draw) && drawn == Draws(prior, nodes)
  {
    assert nodes[..|nodes|] == nodes;
  }

  lemma NeedsDraw(queues: map<string, seq<NodeId>>, ids: seq<NodeId>, drawn: nat, prior: string -> seq<NodeId>,
                  nodes: seq<Parsed>, source: Token, draw: nat -> Token, i: nat)
    requires i < |nodes| && Served(queues, ids, drawn, prior, nodes, source, draw, i) && Queue(queues, nodes[i].updateKey) == []
    ensures Draws(prior, nodes) > 0
  {
    ServeOne(queues, ids, drawn, prior, nodes, source, draw, i);
    DrawsGrow(prior, nodes, i + 1);
  }

  // Takes an identifier for node `i`.
  method TakeId(queues: map<string, seq<NodeId>>, key: string, source: Token, draw: nat -> Token, drawn: nat)
    returns (id: NodeId, queues': map<string, seq<NodeId>>, drawn': nat)
    ensures var queue := Queue(queues, key);
            if queue != [] then id == queue[0] && queues' == queues[key := queue[1..]] && drawn' == drawn
            else id == Owned(source, draw(drawn)) && queues' == queues && drawn' == drawn + 1
  {
    var queue := Queue(queues, key);
    if queue != [] { return queue[0], queues[key := queue[1..]], drawn; }
    return Owned(source, draw(drawn)), queues, drawn + 1;
  }

  // Takes identifiers from the queues, drawing a fresh one when a queue has run dry; fails only
  // when the random source fails and a draw is needed.
  method AssignIds(initial: map<string, seq<NodeId>>, nodes: seq<Parsed>, source: Token, entropy: bool, draw: nat -> Token,
                   ghost prior: string -> seq<NodeId>)
    returns (result: Option<seq<NodeId>>)
    requires forall key :: Queue(initial, key) == prior(key)
    ensures result == if !entropy && Draws(prior, nodes) > 0 then None else Some(AssignedIds(prior, nodes, source, draw))
  {
    var queues, ids, drawn := initial, [], 0;
    ServedNone(queues, prior, nodes, source, draw);
    for i := 0 to |nodes|
      invariant Served(queues, ids, drawn, prior, nodes, source, draw, i)
      invariant !entropy ==> drawn == 0
    {
      if !entropy && Queue(queues, nodes[i].updateKey) == [] {
        NeedsDraw(queues, ids, drawn, prior, nodes, source, draw, i);
        return None;
      }
      ServeOne(queues, ids, drawn, prior, nodes, source, draw, i);
      var id, queues', drawn' := TakeId(queues, nodes[i].updateKey, source, draw, drawn);
      queues, ids, drawn := queues', ids + [id], drawn';
    }
    ServedAll(queues, ids, drawn, prior, nodes, source, draw);
    return Some(ids);
  }

  lemma AssignedPush(prior: string -> seq<NodeId>, nodes: seq<Parsed>, i: nat, source: Token, draw: nat -> Token)
    requires i < |nodes|
    ensures AssignedIds(prior, nodes[..i + 1], source, draw)
            == AssignedIds(prior, nodes[..i], source, draw) + [AssignedId(prior, nodes[..i], nodes[i], source, draw)]
    ensures Draws(prior, nodes[..i + 1]) == Draws(prior, nodes[..i]) + if Reuses(prior, nodes[..i], nodes[i]) then 0 else 1
  {
    var longer := nodes[..i + 1];
    assert longer[..|longer| - 1] == nodes[..i] && longer[|longer| - 1] == nodes[i];
    forall j | 0 <= j <= i ensures longer[..j] == nodes[..i][..j] == nodes[..j] {}
  }

  lemma {:induction false} DrawsGrow(prior: string -> seq<NodeId>, nodes: seq<Parsed>, i: nat)
    requires i <= |nodes|
    ensures Draws(prior, nodes[..i]) <= Draws(prior, nodes)
    decreases |nodes| - i
  {
    if i == |nodes| {
      assert nodes[..i] == nodes;
    } else {
      assert nodes[..i + 1][..i] == nodes[..i];
      DrawsGrow(prior, nodes, i + 1);
    }
  }

  // ---- Identity across a refresh ----------------------------------------

  // The identifiers given to the nodes with one update key, in the order of the content.
  function IdsFor(ids: seq<NodeId>, nodes: seq<Parsed>, key: string): seq<NodeId>
    requires |ids| == |nodes|
  {
    if nodes == [] then []
    else
      var n := |nodes| - 1;
      IdsFor(ids[..n], nodes[..n], key) + if nodes[n].updateKey == key then [ids[n]] else []
  }

  ghost predicate IsDraw(id: NodeId, source: Token, draw: nat -> Token, draws: nat) {
    exists d: nat :: d < draws && id == Owned(source, draw(d))
  }

  // For every update key the first min(old, new) nodes keep the old identifiers in their order,
  // whatever was reordered or repeated; the others get drawn identifiers.
  lemma {:induction false} RefreshKeepsIdentity(prior: string -> seq<NodeId>, nodes: seq<Parsed>, source: Token,
                                                draw: nat -> Token, key: string)
    ensures var ids := IdsFor(AssignedIds(prior, nodes, source, draw), nodes, key);
            var kept := Min(|prior(key)|, Count(nodes, key));
            && |ids| == Count(nodes, key)
            && ids[..kept] == prior(key)[..kept]
            && forall c :: kept <= c < |ids| ==> IsDraw(ids[c], source, draw, Draws(prior, nodes))
  {
    if nodes != [] {
      var n := |nodes| - 1;
      RefreshKeepsIdentity(prior, nodes[..n], source, draw, key);
      IdsForPush(prior, nodes, source, draw, key);
      var before := IdsFor(AssignedIds(prior, nodes[..n], source, draw), nodes[..n], key);
      var kept := Min(|prior(key)|, Count(nodes[..n], key));
      forall c | kept <= c < |before| ensures IsDraw(before[c], source, draw, Draws(prior, nodes)) {
        MoreDraws(before[c], source, draw, Draws(prior, nodes[..n]), Draws(prior, nodes));
      }
      if nodes[n].updateKey == key && !Reuses(prior, nodes[..n], nodes[n]) {
        assert IsDraw(AssignedId(prior, nodes[..n], nodes[n], source, draw), source, draw, Draws(prior, nodes)) by {
          assert Draws(prior, nodes[..n]) < Draws(prior, nodes);
        }
      }
    }
  }

  lemma MoreDraws(id: NodeId, source: Token, draw: nat -> Token, few: nat, many: nat)
    requires few <= many && IsDraw(id, source, draw, few)
    ensures IsDraw(id, source, draw, many)
  {
    var d: nat :| d < few && id == Owned(source, draw(d));
    assert d < many;
  }

  lemma IdsForPush(prior: string -> seq<NodeId>, nodes: seq<Parsed>, source: Token, draw: nat -> Token, key: string)
    requires nodes != []
    ensures var n := |nodes| - 1;
            IdsFor(AssignedIds(prior, nodes, source, draw), nodes, key)
            == IdsFor(AssignedIds(prior, nodes[..n], source, draw), nodes[..n], key)
               + if nodes[n].updateKey == key then [AssignedId(prior, nodes[..n], nodes[n], source, draw)] else []
  {
    var n := |nodes| - 1;
    assert nodes[..n + 1] == nodes;
    AssignedPush(prior, nodes, n, source, draw);
    assert AssignedIds(prior, nodes, source, draw)[..n] == AssignedIds(prior, nodes[..n], source, draw);
  }
}
