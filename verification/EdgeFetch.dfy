/** Fetching the edges to follow from a node, with and without a budget (impact_analysis.rs). */
module EdgeFetch {
  import opened Ordering
  import opened GraphModel

  const USIZE_MAX: nat := 0xFFFF_FFFF_FFFF_FFFF

  /** A budget; `USIZE_MAX` is the source's mark for "no budget". */
  type Budget = n: nat | n <= USIZE_MAX

  datatype Direction = Inbound | Outbound | Both

  /** An edge to follow and the node it leads to. */
  datatype Hop = Hop(edge: EdgeRecord, next: string)

  predicate GoesOut(direction: Direction) { direction == Outbound || direction == Both }

  predicate GoesIn(direction: Direction) { direction == Inbound || direction == Both }

  function OutHops(edges: seq<EdgeRecord>): (r: seq<Hop>)
    ensures |r| == |edges|
  {
    seq(|edges|, i requires 0 <= i < |edges| => Hop(edges[i], edges[i].edgeTo))
  }

  function InHops(edges: seq<EdgeRecord>): (r: seq<Hop>)
    ensures |r| == |edges|
  {
    seq(|edges|, i requires 0 <= i < |edges| => Hop(edges[i], edges[i].edgeFrom))
  }

  // --------------------------------------------------------- what is meant

  /** The edges that touch a node in the wanted direction. A self-loop touches it once. */
  function Incident(g: Graph, node: string, direction: Direction): set<EdgeRecord> {
    (if GoesOut(direction) then OutRows(g, node) else {}) + (if GoesIn(direction) then InRows(g, node) else {})
  }

  /** The other end of an incident edge. */
  function Other(node: string, edge: EdgeRecord): string {
    if edge.edgeFrom == node then edge.edgeTo else edge.edgeFrom
  }

  function IncidentHops(g: Graph, node: string, direction: Direction): set<Hop> {
    set e | e in Incident(g, node, direction) :: Hop(e, Other(node, e))
  }

  function HopByPriority(hop: Hop): SortKey { ByPriority(hop.edge) }

  function HopEdgeKey(hop: Hop): string { hop.edge.edgeKey }

  lemma HopsDistinguish(g: Graph, node: string, direction: Direction)
    ensures Distinguishes(IncidentHops(g, node, direction), HopByPriority)
    ensures forall x, y | x in IncidentHops(g, node, direction) && y in IncidentHops(g, node, direction) ::
              HopEdgeKey(x) == HopEdgeKey(y) ==> x == y
  {
    var rows := Incident(g, node, direction);
    EdgeKeysDistinguish(g, rows);
    forall x, y | x in IncidentHops(g, node, direction) && y in IncidentHops(g, node, direction)
                  && HopEdgeKey(x) == HopEdgeKey(y) ensures x == y {
      assert ByEdgeKey(x.edge) == ByEdgeKey(y.edge);
    }
  }

  /** All incident edges in the order a budget cuts them. */
  function Ranked(g: Graph, node: string, direction: Direction): (r: seq<Hop>)
    ensures forall h :: h in r <==> h in IncidentHops(g, node, direction)
    ensures StrictlySorted(r, HopByPriority)
    ensures |r| == |Incident(g, node, direction)|
  {
    HopsDistinguish(g, node, direction);
    HopCount(g, node, direction);
    OrderBy(IncidentHops(g, node, direction), HopByPriority)
  }

  lemma HopCount(g: Graph, node: string, direction: Direction)
    ensures |IncidentHops(g, node, direction)| == |Incident(g, node, direction)|
  {
    MappedCount(Incident(g, node, direction), IncidentHops(g, node, direction), node);
  }

  lemma {:induction false} MappedCount(rows: set<EdgeRecord>, hops: set<Hop>, node: string)
    requires hops == set e | e in rows :: Hop(e, Other(node, e))
    ensures |hops| == |rows|
    decreases |rows|
  {
    if rows != {} {
      var e :| e in rows;
      var h := Hop(e, Other(node, e));
      assert h in hops;
      MappedCount(rows - {e}, hops - {h}, node);
    }
  }

  /** The edges followed without a budget: outbound then inbound, each by edge key. */
  function Unranked(g: Graph, node: string, direction: Direction): seq<Hop> {
    (if GoesOut(direction) then OutHops(EdgesFrom(g, node)) else [])
    + (if GoesIn(direction) then InHops(EdgesTo(g, node)) else [])
  }

  // ------------------------------------------------------------ the methods

  method NextEdges(g: Graph, node: string, direction: Direction) returns (edges: seq<Hop>)
    ensures edges == Unranked(g, node, direction)
  {
    var outbound, inbound: seq<Hop> := [], [];
    if GoesOut(direction) { outbound := OutHops(EdgesFrom(g, node)); }
    if GoesIn(direction) { inbound := InHops(EdgesTo(g, node)); }
    edges := outbound + inbound;
  }

  lemma OutHopElements(g: Graph, node: string, edges: seq<EdgeRecord>)
    requires forall e :: e in edges ==> e in OutRows(g, node)
    ensures forall h :: h in OutHops(edges) <==> h.edge in edges && h == Hop(h.edge, Other(node, h.edge))
  {
    forall h ensures h in OutHops(edges) <==> h.edge in edges && h == Hop(h.edge, Other(node, h.edge)) {
      if h.edge in edges && h == Hop(h.edge, Other(node, h.edge)) {
        var i :| 0 <= i < |edges| && edges[i] == h.edge;
        assert OutHops(edges)[i] == h;
      }
    }
  }

  lemma InHopElements(g: Graph, node: string, edges: seq<EdgeRecord>)
    requires forall e :: e in edges ==> e in InRows(g, node)
    ensures forall h :: h in InHops(edges) <==> h.edge in edges && h == Hop(h.edge, Other(node, h.edge))
  {
    forall h ensures h in InHops(edges) <==> h.edge in edges && h == Hop(h.edge, Other(node, h.edge)) {
      if h.edge in edges && h == Hop(h.edge, Other(node, h.edge)) {
        var i :| 0 <= i < |edges| && edges[i] == h.edge;
        assert InHops(edges)[i] == h;
      }
    }
  }

  lemma UnrankedElements(g: Graph, node: string, direction: Direction)
    ensures forall h :: h in Unranked(g, node, direction) <==> h in IncidentHops(g, node, direction)
  {
    OutHopElements(g, node, EdgesFrom(g, node));
    InHopElements(g, node, EdgesTo(g, node));
  }

  function MergeBoundedEdges(edges: seq<Hop>, maxEdges: nat, sourceTruncated: bool): (seq<Hop>, bool) {
    var unique := Dedup(StableSort(edges, HopByPriority), HopEdgeKey);
    (Take(unique, maxEdges), sourceTruncated || |unique| > maxEdges)
  }

  // ------------------------------------------------- what is kept by a budget

  /** An edge followed in a direction, with the node it leads to. */
  ghost predicate Leads(direction: Direction, node: string, hop: Hop) {
    match direction
    case Outbound => hop.edge.edgeFrom == node && hop.next == hop.edge.edgeTo
    case Inbound => hop.edge.edgeTo == node && hop.next == hop.edge.edgeFrom
    case Both =>
      || (hop.edge.edgeFrom == node && hop.next == hop.edge.edgeTo)
      || (hop.edge.edgeTo == node && hop.next == hop.edge.edgeFrom)
  }

  lemma IncidentLead(g: Graph, node: string, direction: Direction)
    ensures forall h :: h in IncidentHops(g, node, direction)
                        <==> h.edge in g.edges.Values && Leads(direction, node, h)
  {
    forall h ensures h in IncidentHops(g, node, direction)
        <==> h.edge in g.edges.Values && Leads(direction, node, h) {
      if h.edge in g.edges.Values && Leads(direction, node, h) {
        var k :| k in g.edges && g.edges[k] == h.edge;
        assert h.edge in Incident(g, node, direction) && h.next == Other(node, h.edge);
      }
    }
  }

  /** Edges from an object to one of its parts. */
  ghost predicate Contains(edgeType: string) {
    edgeType in {"DATABASE_HAS_SCHEMA", "SCHEMA_HAS_TABLE", "SCHEMA_HAS_VIEW", "SCHEMA_HAS_ROUTINE", "TABLE_HAS_COLUMN"}
  }

  /** Dependencies are kept before indexes, indexes before containment, and otherwise by edge key. */
  ghost predicate GoesBefore(kept: EdgeRecord, left: EdgeRecord) {
    && (Contains(kept.edgeType) ==> Contains(left.edgeType))
    && (kept.edgeType == "TABLE_HAS_INDEX" ==> left.edgeType == "TABLE_HAS_INDEX" || Contains(left.edgeType))
    && (kept.edgeType == left.edgeType ==> Less(ByText(kept.edgeKey), ByText(left.edgeKey)))
  }

  /** A hop left out comes after every hop kept. */
  ghost predicate LeftLast(kept: seq<Hop>, left: Hop) {
    forall i :: 0 <= i < |kept| ==> GoesBefore(kept[i].edge, left.edge)
  }

  lemma RankedBefore(a: Hop, b: Hop)
    requires Less(HopByPriority(a), HopByPriority(b))
    ensures GoesBefore(a.edge, b.edge)
  {
  }

  lemma RankedFirst(g: Graph, node: string, direction: Direction, k: nat)
    ensures forall h :: h in Ranked(g, node, direction) <==> h in IncidentHops(g, node, direction)
    ensures |Ranked(g, node, direction)| == |Incident(g, node, direction)|
    ensures forall h :: h in Take(Ranked(g, node, direction), k) ==> h in Ranked(g, node, direction)
    ensures forall h :: h in Ranked(g, node, direction) && h !in Take(Ranked(g, node, direction), k) ==>
              LeftLast(Take(Ranked(g, node, direction), k), h)
  {
    hide GoesBefore, HopByPriority;
    var all, part := Ranked(g, node, direction), Take(Ranked(g, node, direction), k);
    forall h | h in all && h !in part ensures LeftLast(part, h) {
      var j :| 0 <= j < |all| && all[j] == h;
      forall i | 0 <= i < |part| ensures GoesBefore(part[i].edge, h.edge) { RankedBefore(all[i], all[j]); }
    }
  }

  /** With a budget, exactly the first `maxEdges` incident edges by priority and key are returned,
      and the flag says whether there were more. */
  method NextEdgesBounded(g: Graph, node: string, direction: Direction, maxEdges: Budget)
    returns (edges: seq<Hop>, more: bool)
    ensures maxEdges == USIZE_MAX ==> edges == Unranked(g, node, direction) && !more
    ensures maxEdges < USIZE_MAX ==> edges == Take(Ranked(g, node, direction), maxEdges)
    ensures maxEdges < USIZE_MAX ==> (more <==> |Incident(g, node, direction)| > maxEdges)
    ensures forall h: Hop :: h in edges ==> h.edge in g.edges.Values && Leads(direction, node, h)
    ensures !more ==> forall h: Hop :: h.edge in g.edges.Values && Leads(direction, node, h) ==> h in edges
    ensures forall h: Hop :: h.edge in g.edges.Values && Leads(direction, node, h) && h !in edges ==> LeftLast(edges, h)
  {
    hide Ranked, Unranked, IncidentHops, MergeBoundedEdges, Leads, GoesBefore, Incident;
    IncidentLead(g, node, direction);
    UnrankedElements(g, node, direction);
    RankedFirst(g, node, direction, maxEdges);
    if maxEdges == USIZE_MAX {
      edges := NextEdges(g, node, direction);
      return edges, false;
    }
    var sourceTruncated;
    edges, sourceTruncated := FetchLimited(g, node, direction, maxEdges);
    MergeIsPrefix(g, node, direction, maxEdges, Ranked(g, node, direction));
    var merged := MergeBoundedEdges(edges, maxEdges, sourceTruncated);
    return merged.0, merged.1;
  }

  /** One limited query for each wanted direction, each asking for one edge beyond the budget. */
  method FetchLimited(g: Graph, node: string, direction: Direction, maxEdges: nat)
    returns (edges: seq<Hop>, sourceTruncated: bool)
    ensures edges == Fetched(g, node, direction, maxEdges + 1)
    ensures sourceTruncated == SourceTruncated(g, node, direction, maxEdges)
  {
    var fetchLimit := maxEdges + 1;
    var outbound, inbound: seq<Hop> := [], [];
    sourceTruncated := false;
    if GoesOut(direction) {
      outbound := OutHops(EdgesFromLimited(g, node, fetchLimit));
      sourceTruncated := |outbound| > maxEdges;
    }
    if GoesIn(direction) {
      inbound := InHops(EdgesToLimited(g, node, fetchLimit));
      sourceTruncated := sourceTruncated || |inbound| > maxEdges;
    }
    edges := outbound + inbound;
  }

  function Fetched(g: Graph, node: string, direction: Direction, limit: nat): seq<Hop> {
    (if GoesOut(direction) then OutHops(EdgesFromLimited(g, node, limit)) else [])
    + (if GoesIn(direction) then InHops(EdgesToLimited(g, node, limit)) else [])
  }

  predicate SourceTruncated(g: Graph, node: string, direction: Direction, k: nat) {
    || (GoesOut(direction) && |EdgesFromLimited(g, node, k + 1)| > k)
    || (GoesIn(direction) && |EdgesToLimited(g, node, k + 1)| > k)
  }

  /** The list of incident edges in the order a budget cuts them, without saying how it is built. */
  ghost predicate IsRanked(g: Graph, node: string, direction: Direction, all: seq<Hop>) {
    StrictlySorted(all, HopByPriority) && forall h :: h in all <==> h in IncidentHops(g, node, direction)
  }

  /** Merging two cut lists, each one longer than the budget, loses nothing within the budget. */
  lemma MergeIsPrefix(g: Graph, node: string, direction: Direction, k: nat, all: seq<Hop>)
    requires IsRanked(g, node, direction, all)
    ensures MergeBoundedEdges(Fetched(g, node, direction, k + 1), k, SourceTruncated(g, node, direction, k))
         == (Take(all, k), |all| > k)
  {
    var out, into := EdgesFromLimited(g, node, k + 1), EdgesToLimited(g, node, k + 1);
    OutFetched(g, node, direction, k, all, out);
    InFetched(g, node, direction, k, all, into);
    HopsDistinguish(g, node, direction);
    var edges := Fetched(g, node, direction, k + 1);
    forall j | 0 <= j <= k && j < |all| ensures all[j] in edges {
      assert all[j] in all && all[j].edge in Incident(g, node, direction);
    }
    MergeOf(Fetched(g, node, direction, k + 1), all, k, SourceTruncated(g, node, direction, k));
  }

  lemma MergeOf(edges: seq<Hop>, all: seq<Hop>, k: nat, cut: bool)
    requires StrictlySorted(all, HopByPriority)
    requires forall x, y | x in all && y in all ::
               (HopByPriority(x) == HopByPriority(y) ==> x == y) && (HopEdgeKey(x) == HopEdgeKey(y) ==> x == y)
    requires forall h :: h in edges ==> h in all
    requires forall j :: 0 <= j <= k && j < |all| ==> all[j] in edges
    requires cut ==> |all| > k
    ensures MergeBoundedEdges(edges, k, cut) == (Take(all, k), |all| > k)
  {
    CutSort(edges, all, HopByPriority, HopEdgeKey, k);
  }

  lemma OutHopsRanked(g: Graph, node: string, direction: Direction, all: seq<Hop>, rows: seq<EdgeRecord>)
    requires IsRanked(g, node, direction, all) && GoesOut(direction) && forall e :: e in rows <==> e in OutRows(g, node)
    ensures forall h :: h in OutHops(rows) ==> h in all
    ensures forall h :: h in all && h.edge in OutRows(g, node) ==> h in OutHops(rows)
  {
    OutHopElements(g, node, rows);
  }

  /** One direction's query returns ranked edges only, among them its own first k + 1. */
  lemma OutFetched(g: Graph, node: string, direction: Direction, k: nat, all: seq<Hop>, out: seq<EdgeRecord>)
    requires IsRanked(g, node, direction, all) && out == EdgesFromLimited(g, node, k + 1)
    ensures GoesOut(direction) ==> (forall h :: h in OutHops(out) ==> h in all) && (|out| > k ==> |all| > k)
    ensures GoesOut(direction) ==>
              forall j :: 0 <= j <= k && j < |all| && all[j].edge in OutRows(g, node) ==> all[j] in OutHops(out)
  {
    hide IncidentHops;
    if GoesOut(direction) {
      EdgeKeysDistinguish(g, OutRows(g, node));
      var rows := OrderBy(OutRows(g, node), ByPriority);
      OutHopElements(g, node, rows);
      OutHopElements(g, node, out);
      OutHopsRanked(g, node, direction, all, rows);
      CutRows(rows, OutHops(rows), all, k);
    }
  }

  lemma InHopsRanked(g: Graph, node: string, direction: Direction, all: seq<Hop>, rows: seq<EdgeRecord>)
    requires IsRanked(g, node, direction, all) && GoesIn(direction) && forall e :: e in rows <==> e in InRows(g, node)
    ensures forall h :: h in InHops(rows) ==> h in all
    ensures forall h :: h in all && h.edge in InRows(g, node) ==> h in InHops(rows)
  {
    InHopElements(g, node, rows);
  }

  lemma InFetched(g: Graph, node: string, direction: Direction, k: nat, all: seq<Hop>, into: seq<EdgeRecord>)
    requires IsRanked(g, node, direction, all) && into == EdgesToLimited(g, node, k + 1)
    ensures GoesIn(direction) ==> (forall h :: h in InHops(into) ==> h in all) && (|into| > k ==> |all| > k)
    ensures GoesIn(direction) ==>
              forall j :: 0 <= j <= k && j < |all| && all[j].edge in InRows(g, node) ==> all[j] in InHops(into)
  {
    hide IncidentHops;
    if GoesIn(direction) {
      EdgeKeysDistinguish(g, InRows(g, node));
      var rows := OrderBy(InRows(g, node), ByPriority);
      InHopElements(g, node, rows);
      InHopElements(g, node, into);
      InHopsRanked(g, node, direction, all, rows);
      CutRows(rows, InHops(rows), all, k);
    }
  }

  /** A ranked edge within the budget stands within the budget in its own direction's list. */
  lemma CutRows(rows: seq<EdgeRecord>, hops: seq<Hop>, all: seq<Hop>, k: nat)
    requires |hops| == |rows| && forall i :: 0 <= i < |rows| ==> hops[i].edge == rows[i]
    requires StrictlySorted(rows, ByPriority) && StrictlySorted(all, HopByPriority)
    requires forall h :: h in hops ==> h in all
    ensures forall j :: 0 <= j <= k && j < |all| && all[j] in hops ==> all[j].edge in Take(rows, k + 1)
    ensures |rows| > k ==> |all| > k
  {
    assert StrictlySorted(hops, HopByPriority);
    StrictlySortedLength(all, HopByPriority);
    forall j | 0 <= j <= k && j < |all| && all[j] in hops ensures all[j].edge in Take(rows, k + 1) {
      var r :| 0 <= r < |hops| && hops[r] == all[j];
      var at := RankInSuperset(hops, all, HopByPriority, r);
      assert at == j && rows[r] == all[j].edge && Take(rows, k + 1)[r] == rows[r];
    }
    if |rows| > k { var at := RankInSuperset(hops, all, HopByPriority, k); }
  }
}
