/** The scenario driver (RwrApplication.java: createSimData and
    runSimulation): a fixed, hand-written sequence of signal snapshots sent
    one by one, where a failed send is reported and skipped. */
module Simulation {
  import opened Wrappers
  import opened Signals

  /** The two failures a send declares: JSON encoding and AMQP transport. */
  datatype SendError = JsonProcessing | Amqp

  /** The scenario, as readings: snapshot k holds everything detected at
      time step k. */
  const SCENARIO: seq<seq<Reading>> := [
    [Reading(90, 212.0, 2)],
    [Reading(85, 212.0, 2), Reading(185, 268.0, 6)],
    [Reading(80, 212.0, 3), Reading(188, 268.0, 5)],
    [Reading(75, 212.0, 3), Reading(191, 268.0, 3), Reading(300, 510.0, 1)],
    [Reading(70, 212.0, 6), Reading(193, 268.0, 2), Reading(296, 510.0, 1)],
    [Reading(60, 212.0, 6), Reading(194, 268.0, 1), Reading(292, 510.0, 1)],
    [Reading(55, 212.0, 7), Reading(195, 268.0, 1), Reading(288, 510.0, 1)],
    [Reading(54, 212.0, 8), Reading(284, 510.0, 1)],
    [Reading(53, 212.0, 9), Reading(280, 510.0, 1)],
    [Reading(52, 212.0, 9), Reading(278, 510.0, 1)],
    [Reading(50, 212.0, 9), Reading(276, 510.0, 1)]
  ]

  /** The failures among the outcomes of a run of sends, in order. */
  function Failures(outcomes: seq<Option<SendError>>): (r: seq<SendError>)
    ensures |r| <= |outcomes|
    ensures r == [] <==> forall i :: 0 <= i < |outcomes| ==> outcomes[i] == None
  {
    if outcomes == [] then []
    else (if outcomes[0].Some? then [outcomes[0].value] else []) + Failures(outcomes[1..])
  }

  /** The transport side of a send. Encoding and publishing happen outside
      the model; whether a send fails is decided by the environment and
      passed in as `fault`. */
  class MessageSender {
    /** Every batch handed to sendMessage, whether or not it got through. */
    ghost var sent: seq<seq<Signal>>

    constructor ()
      ensures sent == []
    {
      sent := [];
    }

    method SendMessage(signals: seq<Signal>, fault: Option<SendError>) returns (outcome: Option<SendError>)
      modifies this
      ensures sent == old(sent) + [signals]
      ensures outcome == fault
    {
      sent := sent + [signals];
      outcome := fault;
    }
  }

  /** `new ArrayList<>(Arrays.asList(new Signal(..)))` with one, two or three signals. */
  method NewSnapshot1(r0: Reading) returns (batch: seq<Signal>)
    ensures |batch| == 1 && fresh(batch[0]) && batch[0].direction == r0.direction && batch[0].frequency == r0.frequency && batch[0].strength == r0.strength
  {
    var s0 := new Signal(r0.direction, r0.frequency, r0.strength);
    batch := [s0];
  }

  method NewSnapshot2(r0: Reading, r1: Reading) returns (batch: seq<Signal>)
    ensures |batch| == 2 && fresh(batch[0]) && fresh(batch[1]) && batch[0] != batch[1]
    ensures batch[0].direction == r0.direction && batch[0].frequency == r0.frequency && batch[0].strength == r0.strength && batch[1].direction == r1.direction && batch[1].frequency == r1.frequency && batch[1].strength == r1.strength
  {
    var s0 := new Signal(r0.direction, r0.frequency, r0.strength);
    var s1 := new Signal(r1.direction, r1.frequency, r1.strength);
    batch := [s0, s1];
  }

  method NewSnapshot3(r0: Reading, r1: Reading, r2: Reading) returns (batch: seq<Signal>)
    ensures |batch| == 3 && fresh(batch[0]) && fresh(batch[1]) && fresh(batch[2])
    ensures batch[0] != batch[1] && batch[0] != batch[2] && batch[1] != batch[2]
    ensures batch[0].direction == r0.direction && batch[0].frequency == r0.frequency && batch[0].strength == r0.strength && batch[1].direction == r1.direction && batch[1].frequency == r1.frequency && batch[1].strength == r1.strength && batch[2].direction == r2.direction && batch[2].frequency == r2.frequency && batch[2].strength == r2.strength
  {
    var s0 := new Signal(r0.direction, r0.frequency, r0.strength);
    var s1 := new Signal(r1.direction, r1.frequency, r1.strength);
    var s2 := new Signal(r2.direction, r2.frequency, r2.strength);
    batch := [s0, s1, s2];
  }

  class RwrApplication {
    const messageSender: MessageSender
    /** The interrupt flag of the thread running the simulation. */
    var interrupted: bool
    /** The failures written to the error stream, in order. */
    ghost var reported: seq<SendError>

    constructor (messageSender: MessageSender)
      ensures this.messageSender == messageSender
      ensures !interrupted && reported == []
    {
      this.messageSender := messageSender;
      interrupted := false;
      reported := [];
    }

    /** The one-second pause before each send, with no delay modelled. Sleep
        throws when the flag is already set or an interrupt arrives during the
        pause; the handler sets the flag again, so it ends up set in both cases. */
    method Pause(interruptedDuring: bool)
      modifies this
      ensures interrupted == (old(interrupted) || interruptedDuring)
      ensures reported == old(reported)
    {
      if interrupted || interruptedDuring {
        interrupted := true;
      }
    }

    /** createSimData: the 11 snapshots of SCENARIO, built from 25 fresh signals.
        The readings are written out here a second time on purpose: the body
        follows the source's literal lists, and the ensures checks them
        against SCENARIO. */
    method CreateSimData() returns (simData: seq<seq<Signal>>)
      ensures |simData| == |SCENARIO|
      ensures forall k :: 0 <= k < |simData| ==> |simData[k]| == |SCENARIO[k]|
      ensures forall k, j :: 0 <= k < |simData| && 0 <= j < |simData[k]| ==>
        fresh(simData[k][j]) &&
        simData[k][j].direction == SCENARIO[k][j].direction &&
        simData[k][j].frequency == SCENARIO[k][j].frequency &&
        simData[k][j].strength == SCENARIO[k][j].strength
    {
      var s0 := NewSnapshot1(Reading(90, 212.0, 2));
      var s1 := NewSnapshot2(Reading(85, 212.0, 2), Reading(185, 268.0, 6));
      var s2 := NewSnapshot2(Reading(80, 212.0, 3), Reading(188, 268.0, 5));
      var s3 := NewSnapshot3(Reading(75, 212.0, 3), Reading(191, 268.0, 3), Reading(300, 510.0, 1));
      var s4 := NewSnapshot3(Reading(70, 212.0, 6), Reading(193, 268.0, 2), Reading(296, 510.0, 1));
      var s5 := NewSnapshot3(Reading(60, 212.0, 6), Reading(194, 268.0, 1), Reading(292, 510.0, 1));
      var s6 := NewSnapshot3(Reading(55, 212.0, 7), Reading(195, 268.0, 1), Reading(288, 510.0, 1));
      var s7 := NewSnapshot2(Reading(54, 212.0, 8), Reading(284, 510.0, 1));
      var s8 := NewSnapshot2(Reading(53, 212.0, 9), Reading(280, 510.0, 1));
      var s9 := NewSnapshot2(Reading(52, 212.0, 9), Reading(278, 510.0, 1));
      var s10 := NewSnapshot2(Reading(50, 212.0, 9), Reading(276, 510.0, 1));
      simData := [s0, s1, s2, s3, s4, s5, s6, s7, s8, s9, s10];
    }

    /** runSimulation: one pause and one send attempt per snapshot, in order,
        each snapshot exactly once. `interrupts[k]` says whether the k-th pause
        was interrupted, `faults[k]` whether the k-th send fails; a failure is
        reported and the loop goes on. */
    method RunSimulation(simData: seq<seq<Signal>>, interrupts: seq<bool>, faults: seq<Option<SendError>>)
      requires |interrupts| == |simData| && |faults| == |simData|
      modifies this, messageSender
      ensures messageSender.sent == old(messageSender.sent) + simData
      ensures reported == old(reported) + Failures(faults)
      ensures interrupted == (old(interrupted) || true in interrupts)
    {
      for n := 0 to |simData|
        invariant messageSender.sent == old(messageSender.sent) + simData[..n]
        invariant reported == old(reported) + Failures(faults[..n])
        invariant interrupted == (old(interrupted) || true in interrupts[..n])
      {
        Pause(interrupts[n]);
        var outcome := messageSender.SendMessage(simData[n], faults[n]);
        if outcome.Some? {
          reported := reported + [outcome.value];
        }
        FailuresSnoc(faults[..n], faults[n]);
        assert faults[..n + 1] == faults[..n] + [faults[n]];
        assert simData[..n + 1] == simData[..n] + [simData[n]];
        assert interrupts[..n + 1] == interrupts[..n] + [interrupts[n]];
      }
      assert faults[..|faults|] == faults && simData[..|simData|] == simData && interrupts[..|interrupts|] == interrupts;
    }
  }

  lemma {:induction false} FailuresSnoc(outcomes: seq<Option<SendError>>, last: Option<SendError>)
    ensures Failures(outcomes + [last]) == Failures(outcomes) + (if last.Some? then [last.value] else [])
  {
    if outcomes == [] {
      assert outcomes + [last] == [last];
      assert [last][1..] == [];
    } else {
      var whole := outcomes + [last];
      assert whole[0] == outcomes[0];
      assert whole[1..] == outcomes[1..] + [last];
      FailuresSnoc(outcomes[1..], last);
    }
  }

  // ---------------------------------------------------------------------
  // Properties of the scenario

  /** The snapshot sizes; none is empty. */
  lemma ScenarioSizes()
    ensures |SCENARIO| == 11
    ensures seq(|SCENARIO|, k requires 0 <= k < |SCENARIO| => |SCENARIO[k]|) == [1, 2, 2, 3, 3, 3, 3, 2, 2, 2, 2]
    ensures forall k :: 0 <= k < |SCENARIO| ==> SCENARIO[k] != []
  {
  }

  /** Every reading has direction in [0, 360] and strength in [1, 10]. */
  lemma ScenarioInRange()
    ensures forall k, j :: 0 <= k < |SCENARIO| && 0 <= j < |SCENARIO[k]| ==>
      0 <= SCENARIO[k][j].direction <= 360 && 1 <= SCENARIO[k][j].strength <= 10
  {
  }

  /** The 212 emitter leads every snapshot; it closes in from bearing 90 to
      50 while its strength climbs from 2 to 9 and never drops. */
  lemma ScenarioTrack()
    ensures forall k :: 0 <= k < |SCENARIO| ==> SCENARIO[k][0].frequency == 212.0
    ensures forall k, m :: 0 <= k < m < |SCENARIO| ==>
      SCENARIO[m][0].direction < SCENARIO[k][0].direction &&
      SCENARIO[k][0].strength <= SCENARIO[m][0].strength
    ensures SCENARIO[0][0].direction == 90 && SCENARIO[0][0].strength == 2
    ensures SCENARIO[10][0].direction == 50 && SCENARIO[10][0].strength == 9
  {
  }
}
