/**
 * The relay board's vocabulary: the on/off state, the sixteen relay names of
 * the production garden and of the ACME build, each with its status label,
 * and the single error type every relay failure carries.
 *
 * In the source one X-macro list produces both the `RELAY_NAME` enumeration
 * and the label table of the status listing; here the list is `RelayList`
 * (and `AcmeRelayList`), and both the enumeration index and the label are read
 * from it, so they cannot drift apart.
 */
module RelayNames {

  /** A relay failure: a message and nothing else. */
  datatype RelayError = RelayError(message: string)

  datatype RelayState = RelayOff | RelayOn

  /** The numeric value of the C enumeration `RELAY_STATE`. */
  function StateOrdinal(s: RelayState): (n: nat)
    ensures n < 2
    ensures n == 0 <==> s == RelayOff
  {
    match s
    case RelayOff => 0
    case RelayOn => 1
  }

  function StateOfOrdinal(n: nat): (s: RelayState)
    requires n < 2
    ensures StateOrdinal(s) == n
  {
    if n == 0 then RelayOff else RelayOn
  }

  /** The relays of the production garden board. */
  datatype RelayName =
    | Future0 | Future1 | Bell | TrackSemR | TrackSemL
    | UpperWW | Future6 | LowerWW
    | H2Relay
    | W4Red | W4Yellow | W4Green
    | C3Red | C3Yellow | C3Green
    | TrackCar

  /** The production relay list, in enumeration order, each with its status label. */
  const RelayList: seq<(RelayName, string)> := [
    (Future0, "Future 0"),
    (Future1, "Future 1"),
    (Bell, "Bell"),
    (TrackSemR, "Track Sem. L"),
    (TrackSemL, "Track Sem. L"),
    (UpperWW, "Upper WW"),
    (Future6, "Future 6"),
    (LowerWW, "Lower WW"),
    (H2Relay, "H2"),
    (W4Red, "4W/Red"),
    (W4Yellow, "4W/Yellow"),
    (W4Green, "4W/Green"),
    (C3Red, "C3/Red"),
    (C3Yellow, "C3/Yellow"),
    (C3Green, "C3/Green"),
    (TrackCar, "Track Car")
  ]

  /** Number of relays on the board. */
  const RelayCount: nat := 16

  /** The last relay the status listing reports in the production build. */
  const LastRelay: RelayName := H2Relay

  /** The enumeration value of a relay: its position in the relay list. */
  function Index(r: RelayName): (i: nat)
    ensures i < RelayCount == |RelayList|
    ensures RelayList[i].0 == r
  {
    match r
    case Future0 => 0
    case Future1 => 1
    case Bell => 2
    case TrackSemR => 3
    case TrackSemL => 4
    case UpperWW => 5
    case Future6 => 6
    case LowerWW => 7
    case H2Relay => 8
    case W4Red => 9
    case W4Yellow => 10
    case W4Green => 11
    case C3Red => 12
    case C3Yellow => 13
    case C3Green => 14
    case TrackCar => 15
  }

  /** The relay with a given enumeration value (`static_cast<RELAY_NAME>(i)`). */
  function Name(i: nat): (r: RelayName)
    requires i < RelayCount
    ensures Index(r) == i
  {
    RelayList[i].0
  }

  /** The status label of a relay: the label the relay table pairs with it. */
  function Label(r: RelayName): (l: string)
    ensures (r, l) in RelayList
  {
    RelayList[Index(r)].1
  }

  /**
   * The enumeration value and the label come from the same table row, so the
   * relay at index `i` carries the label of row `i` and of no other row.
   */
  lemma LabelAligned()
    ensures forall i | 0 <= i < RelayCount :: Label(Name(i)) == RelayList[i].1
    ensures forall r: RelayName, i | 0 <= i < RelayCount && RelayList[i].0 == r :: i == Index(r)
  {
    forall r: RelayName, i | 0 <= i < RelayCount && RelayList[i].0 == r
      ensures i == Index(r)
    {
      IndexBijective();
      assert Name(i) == r;
    }
  }

  /** Every status label fits on one line. */
  lemma LabelsOneLine()
    ensures forall i | 0 <= i < |RelayList| :: '\n' !in RelayList[i].1
  {
  }

  /** Different relays have different enumeration values, and every value 0..15 names one. */
  lemma IndexBijective()
    ensures forall r1: RelayName, r2: RelayName :: Index(r1) == Index(r2) ==> r1 == r2
    ensures forall i :: 0 <= i < RelayCount ==> Index(Name(i)) == i
  {
  }

  /** The right track-car semaphore carries the left one's label. */
  lemma TrackSemLabels()
    ensures Label(TrackSemR) == Label(TrackSemL) == "Track Sem. L"
    ensures Index(TrackSemR) != Index(TrackSemL)
  {
  }

  /** The status listing stops at H2 (index 8) although sixteen relays exist. */
  lemma LastRelayIndex()
    ensures Index(LastRelay) == 8 < RelayCount
  {
  }

  /** The relays of the ACME build (two signal heads with arms). */
  datatype AcmeRelay =
    | H1MotorPower | H1MotorDir | H1Fold
    | H1Green | H1Bell
    | H1Yellow | H1Red
    | Future7 | Future8
    | H2Red | H2Yellow | H2Bell | H2Green
    | H2Fold | H2MotorDir | H2MotorPower

  const AcmeRelayList: seq<(AcmeRelay, string)> := [
    (H1MotorPower, "H1: Motor Power"),
    (H1MotorDir, "H1: Motor Dir."),
    (H1Fold, "H1: Fold"),
    (H1Green, "H1: Green"),
    (H1Bell, "H1: Bell"),
    (H1Yellow, "H1: Yellow"),
    (H1Red, "H1: Red"),
    (Future7, "Future 7"),
    (Future8, "Future 8"),
    (H2Red, "H2: Red"),
    (H2Yellow, "H2: Yellow"),
    (H2Bell, "H2: Bell"),
    (H2Green, "H2: Green"),
    (H2Fold, "H2: Fold"),
    (H2MotorDir, "H2: Motor Dir."),
    (H2MotorPower, "H2: Motor Power")
  ]

  /** The last relay of the ACME build. */
  const AcmeLastRelay: AcmeRelay := H2MotorPower

  function AcmeIndex(r: AcmeRelay): (i: nat)
    ensures i < RelayCount == |AcmeRelayList|
    ensures AcmeRelayList[i].0 == r
  {
    match r
    case H1MotorPower => 0
    case H1MotorDir => 1
    case H1Fold => 2
    case H1Green => 3
    case H1Bell => 4
    case H1Yellow => 5
    case H1Red => 6
    case Future7 => 7
    case Future8 => 8
    case H2Red => 9
    case H2Yellow => 10
    case H2Bell => 11
    case H2Green => 12
    case H2Fold => 13
    case H2MotorDir => 14
    case H2MotorPower => 15
  }

  function AcmeName(i: nat): (r: AcmeRelay)
    requires i < RelayCount
    ensures AcmeIndex(r) == i
  {
    AcmeRelayList[i].0
  }

  /** In the ACME build the last relay is the last of all sixteen. */
  lemma AcmeLastRelayIndex()
    ensures AcmeIndex(AcmeLastRelay) == 15 == RelayCount - 1
  {
  }
}
