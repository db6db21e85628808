/** The records of the earlier crawler: a council to crawl, the decisions found on its pages,
    and the result of analysing one page. */
module Decisions {
  import opened Wrappers

  /** `DecisionCategory`. */
  datatype Category =
    | CycleLane | TrafficFilter | Ltn | PedestrianCrossing | SpeedLimit
    | RoadClosure | BusLane | PavementWidening | SchoolStreet | OtherActiveTravel

  /** The entries in declaration order. */
  const Entries: seq<Category> :=
    [CycleLane, TrafficFilter, Ltn, PedestrianCrossing, SpeedLimit,
     RoadClosure, BusLane, PavementWidening, SchoolStreet, OtherActiveTravel]

  /** The enum constant's `name`. */
  function Name(c: Category): string {
    match c
    case CycleLane => "CYCLE_LANE"
    case TrafficFilter => "TRAFFIC_FILTER"
    case Ltn => "LTN"
    case PedestrianCrossing => "PEDESTRIAN_CROSSING"
    case SpeedLimit => "SPEED_LIMIT"
    case RoadClosure => "ROAD_CLOSURE"
    case BusLane => "BUS_LANE"
    case PavementWidening => "PAVEMENT_WIDENING"
    case SchoolStreet => "SCHOOL_STREET"
    case OtherActiveTravel => "OTHER_ACTIVE_TRAVEL"
  }

  /** `DecisionCategory.valueOf`: the constant with exactly this name; None where Kotlin throws
      `IllegalArgumentException`. */
  function ValueOf(name: string): (r: Option<Category>)
    ensures r.Some? ==> Name(r.value) == name
    ensures r.None? ==> forall c :: Name(c) != name
  {
    if name == "CYCLE_LANE" then Some(CycleLane)
    else if name == "TRAFFIC_FILTER" then Some(TrafficFilter)
    else if name == "LTN" then Some(Ltn)
    else if name == "PEDESTRIAN_CROSSING" then Some(PedestrianCrossing)
    else if name == "SPEED_LIMIT" then Some(SpeedLimit)
    else if name == "ROAD_CLOSURE" then Some(RoadClosure)
    else if name == "BUS_LANE" then Some(BusLane)
    else if name == "PAVEMENT_WIDENING" then Some(PavementWidening)
    else if name == "SCHOOL_STREET" then Some(SchoolStreet)
    else if name == "OTHER_ACTIVE_TRAVEL" then Some(OtherActiveTravel)
    else None
  }

  /** `valueOf` inverts `name`, so distinct constants have distinct names. */
  lemma ValueOfName(c: Category)
    ensures ValueOf(Name(c)) == Some(c)
  {
  }

  /** Every constant is one of the ten entries. */
  lemma EntriesComplete()
    ensures forall c :: c in Entries
    ensures |Entries| == 10
  {
    forall c ensures c in Entries {
      match c
      case CycleLane => assert c == Entries[0];
      case TrafficFilter => assert c == Entries[1];
      case Ltn => assert c == Entries[2];
      case PedestrianCrossing => assert c == Entries[3];
      case SpeedLimit => assert c == Entries[4];
      case RoadClosure => assert c == Entries[5];
      case BusLane => assert c == Entries[6];
      case PavementWidening => assert c == Entries[7];
      case SchoolStreet => assert c == Entries[8];
      case OtherActiveTravel => assert c == Entries[9];
    }
  }

  /** The names of the entries are exactly the ten expected ones. */
  lemma EntriesNames()
    ensures forall name :: (exists c :: Name(c) == name) <==> name in ExpectedNames
  {
    forall name | name in ExpectedNames ensures exists c :: Name(c) == name {
      assert Name(ValueOf(name).value) == name;
    }
  }

  const ExpectedNames: set<string> :=
    {"CYCLE_LANE", "TRAFFIC_FILTER", "LTN", "PEDESTRIAN_CROSSING", "SPEED_LIMIT",
     "ROAD_CLOSURE", "BUS_LANE", "PAVEMENT_WIDENING", "SCHOOL_STREET", "OTHER_ACTIVE_TRAVEL"}

  /** `Council`: the region defaults to "" in the source. */
  datatype Council = Council(id: string, name: string, meetingsUrl: string, region: string)

  /** `Decision`; the score is a Kotlin `Int`. */
  datatype Decision = Decision(
    councilId: string,
    councilName: string,
    meetingTitle: string,
    meetingUrl: string,
    summary: string,
    category: Category,
    relevanceScore: int)

  /** `AnalysisResult`. */
  datatype AnalysisResult = AnalysisResult(decisions: seq<Decision>, followUpUrls: seq<string>, hasRelevantContent: bool)
}
