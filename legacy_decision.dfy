/** The earlier, stand-alone switch rule of the repository root
    (decision_engine.py): three comparisons that either clear a switch or
    give every reason against it. The two thresholds come from the root
    configuration record, which is not part of this model, so they are
    parameters here. */
module LegacyDecision {

  datatype DecisionState = Hold | ReadyToSwitch

  /** The reason codes of a HOLD, in the order `decide` tests them. */
  datatype ReasonCode = LeaderIsCurrent | EdgeTooSmall | NetEdgeTooSmall

  /** The position of a reason code in the fixed test order. */
  function Rank(r: ReasonCode): nat {
    match r
    case LeaderIsCurrent => 0
    case EdgeTooSmall => 1
    case NetEdgeTooSmall => 2
  }

  datatype Decision = Decision(state: DecisionState, reasonCodes: seq<ReasonCode>)

  /** `decide(leader, current_asset, edge, net_edge)` with the thresholds
      `edge_threshold` and `net_edge_min`. */
  function Decide(leader: string, currentAsset: string, edge: real, netEdge: real,
                  edgeThreshold: real, netEdgeMin: real): (d: Decision)
    ensures d.state == ReadyToSwitch <==>
              leader != currentAsset && edge >= edgeThreshold && netEdge >= netEdgeMin
    ensures d.state == ReadyToSwitch ==> d.reasonCodes == []
    ensures d.state == Hold ==>
              && (LeaderIsCurrent in d.reasonCodes <==> leader == currentAsset)
              && (EdgeTooSmall in d.reasonCodes <==> edge < edgeThreshold)
              && (NetEdgeTooSmall in d.reasonCodes <==> netEdge < netEdgeMin)
              && |d.reasonCodes| > 0
    ensures forall i, j :: 0 <= i < j < |d.reasonCodes| ==> Rank(d.reasonCodes[i]) < Rank(d.reasonCodes[j])
  {
    var reasons := (if leader == currentAsset then [LeaderIsCurrent] else [])
                   + (if edge < edgeThreshold then [EdgeTooSmall] else [])
                   + (if netEdge < netEdgeMin then [NetEdgeTooSmall] else []);
    if leader != currentAsset && edge >= edgeThreshold && netEdge >= netEdgeMin then
      Decision(ReadyToSwitch, [])
    else
      Decision(Hold, reasons)
  }
}
