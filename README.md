# RWR signal pipeline, in Dafny

This project models the consumer side of the radar-warning-receiver simulator
and the scenario driver that feeds it:

- the **classifier** (`SignalInterpreter`, `Threat`): each raw `Signal`
  (direction, frequency, strength) becomes an `RwrContact` (direction, emitter
  symbol, threat code). The symbol comes from a ladder of ten inclusive
  frequency ranges that falls through to `"U"`. The threat code comes from a
  four-step strength ladder.
- the **records** (`Signal`, `RwrContact`, `SignalEvent`): mutable objects
  with getters and setters, modelled as Dafny classes.
- the **delivery handler** (`MessageReceiver.receiveMessage`): a decoded
  batch is classified, the contact list is posted to the display, and one
  `SignalEvent` per signal, all with one timestamp, is saved in a single call.
- the **scenario driver** (`RwrApplication.createSimData`, `runSimulation`):
  eleven fixed snapshots, each sent once and in order. A failed send is
  reported and the loop moves on.

Files: `wrappers.dfy` (Option), `threat.dfy`, `signal.dfy`, `rwr_contact.dfy`,
`signal_event.dfy`, `signal_interpreter.dfy`, `message_receiver.dfy`,
`rwr_application.dfy`. Apart from `wrappers.dfy`, each file models one Java
class, except that `rwr_application.dfy` models both `RwrApplication` and
`MessageSender` (module `Simulation`), since `RwrApplication` is the sender's
only caller here.

Modelling choices:

- Frequency is a `real`. The code only compares it with decimal constants and
  never computes with it.
- A Java `String` or list that may be null is an `Option`. `None` is null.
  Object references that may be null (`SignalEvent.signal`, `.rwrContact`) use
  Dafny's nullable class types.
- Decoding is done by the JSON library, so it is a parameter of
  `ReceiveMessage`: `Option<seq<Signal>>`. `None` stands for both a decoding
  exception and a decoded null list. In both cases `receiveMessage` makes no
  display or repository call.
- The display and the repository are represented by one ghost trace,
  `MessageReceiver.calls`. Each entry is a `Display(contacts)` post or a
  `Save(events)` call, so the order of the two calls can be seen.
- The clock reading (`new Date()`) is the `eventTime` parameter. The pause
  (`Thread.sleep`) is `Pause`, which takes no time. Whether a pause is
  interrupted and whether a send fails are decided by the environment, so
  they are passed in as sequences (`interrupts`, `faults`). `interrupts[k]` stands
  for an interrupt arriving after the previous send began or during the k-th
  pause.
- The emitter table is also written as data (`BANDS`, a sequence of
  `Band(low, high, symbol)`), and `Lookup` is first-match search over it.
  `LadderMatchesTable` proves that the if/else ladder is that lookup.

Behaviour of the code worth noting:

- Frequency 268 lies in the `266.7..272.0` range, so it gives `"24"`.
- Strength 11 or more fails the `9..10` test and then passes `>= 7`, so it
  gives LOCK (`"LCK"`), not LAUNCH.
- Signals are mutable objects with setters, not immutable values.
- Nothing checks that direction is in 0-360 or strength is in 1-10.

## Model

| member | source | states |
|---|---|---|
| `Threats.Threat.Code` | RWR/src/main/java/rwr/sim/Threat.java:14-29 | each level's code is fixed by its constant and is three letters long; a datatype value cannot change it |
| `Threats.CodeTable` | RWR/src/main/java/rwr/sim/Threat.java:9-12 | LOW, HIGH, LOCK and LAUNCH have the codes "LOW", "HGH", "LCK" and "LCH" |
| `Threats.CodeInjective` | RWR/src/main/java/rwr/sim/Threat.java:9-12 | two levels have the same code exactly when they are the same level, so a code identifies its level |
| `Threats.ThreatCodeIff` | RWR/src/main/java/rwr/sim/Threat.java:7-29 | a string is one of the four codes exactly when some level carries it |
| `Signals.Signal.Empty` | RWR/src/main/java/rwr/sim/Signal.java:32 | the no-argument constructor leaves every field at its default: zero direction, frequency, strength and id |
| `Signals.Signal.constructor` | RWR/src/main/java/rwr/sim/Signal.java:42-47 | stores direction, frequency and strength exactly as given, with no range check |
| `Signals.Signal.SetDirection` | RWR/src/main/java/rwr/sim/Signal.java:54-67 | afterwards `GetDirection` returns the new value; frequency, strength and id are unchanged |
| `Signals.Signal.SetFrequency` | RWR/src/main/java/rwr/sim/Signal.java:74-87 | afterwards `GetFrequency` returns the new value; direction, strength and id are unchanged |
| `Signals.Signal.SetStrength` | RWR/src/main/java/rwr/sim/Signal.java:94-107 | afterwards `GetStrength` returns the new value; direction, frequency and id are unchanged |
| `Contacts.RwrContact.constructor` | RWR/src/main/java/rwr/sim/RwrContact.java:32 | a new contact has zero id and direction and null symbol and threat code |
| `Contacts.RwrContact.SetDirection` | RWR/src/main/java/rwr/sim/RwrContact.java:39-52 | afterwards `GetDirection` returns the new value; symbol, threat code and id are unchanged |
| `Contacts.RwrContact.SetSymbol` | RWR/src/main/java/rwr/sim/RwrContact.java:59-72 | afterwards `GetSymbol` returns the new value; direction, threat code and id are unchanged |
| `Contacts.RwrContact.SetThreatCd` | RWR/src/main/java/rwr/sim/RwrContact.java:79-92 | afterwards `GetThreatCd` returns the value given, which can be any string; direction, symbol and id are unchanged |
| `Events.SignalEvent.constructor` | RWR/src/main/java/rwr/sim/SignalEvent.java:24-41 | a new event has id 0 and no signal, contact or detection time |
| `Events.SignalEvent.SetId` | RWR/src/main/java/rwr/sim/SignalEvent.java:48-61 | afterwards `GetId` returns the new value; signal, contact and time are unchanged, so the id is independent of them |
| `Events.SignalEvent.SetSignal` | RWR/src/main/java/rwr/sim/SignalEvent.java:68-81 | afterwards `GetSignal` returns the new reference; id, contact and time are unchanged |
| `Events.SignalEvent.SetRwrContact` | RWR/src/main/java/rwr/sim/SignalEvent.java:88-101 | afterwards `GetRwrContact` returns the new reference; id, signal and time are unchanged |
| `Events.SignalEvent.SetDetectionTime` | RWR/src/main/java/rwr/sim/SignalEvent.java:108-121 | afterwards `GetDetectionTime` returns the new value; id, signal and contact are unchanged |
| `SignalInterpreter.InterpretSignalFrequency` | RWR/src/main/java/rwr/sim/SignalInterpreter.java:43-96 | total on every frequency; the symbol it returns is never null (never empty) |
| `SignalInterpreter.LadderMatchesTable` | RWR/src/main/java/rwr/sim/SignalInterpreter.java:50-93 | the ladder returns the symbol of the first range in the table that contains the frequency, and "U" when no range does |
| `SignalInterpreter.BandsAscending` | RWR/src/main/java/rwr/sim/SignalInterpreter.java:50-89 | each range has low <= high, and each ends below the start of the next |
| `SignalInterpreter.BandsDisjoint` | RWR/src/main/java/rwr/sim/SignalInterpreter.java:50-89 | the ten ranges are pairwise disjoint, so no frequency lies in two of them |
| `SignalInterpreter.LookupHit` | RWR/src/main/java/rwr/sim/SignalInterpreter.java:50-89 | in any table of disjoint ranges, a frequency inside range k gets range k's symbol, wherever k sits in the table |
| `SignalInterpreter.LookupMiss` | RWR/src/main/java/rwr/sim/SignalInterpreter.java:90-93 | a frequency in no range of the table falls through to "U" |
| `SignalInterpreter.LookupOrderIndependent` | RWR/src/main/java/rwr/sim/SignalInterpreter.java:50-89 | two disjoint tables holding the same ranges in a different order give the same symbol for every frequency, so the order of the checks does not matter |
| `SignalInterpreter.SymbolOfBand` | RWR/src/main/java/rwr/sim/SignalInterpreter.java:50-89 | a frequency inside the k-th range of the table is classified with that range's symbol |
| `SignalInterpreter.SymbolUnknownIff` | RWR/src/main/java/rwr/sim/SignalInterpreter.java:50-93 | the symbol is "U" exactly when none of the ten ranges contains the frequency (both directions) |
| `SignalInterpreter.FrequencyCases` | RWR/src/main/java/rwr/sim/SignalInterpreter.java:50-93 | both bounds of a range are inclusive; 205 gives "19", 212 gives "21", 241.2 gives "22", 268 gives "24", 287.5 gives "25", 395 gives "A", 550 gives "EW"; 210.995, 265, 900 and -1 give "U" |
| `SignalInterpreter.InterpretSignalStrength` | RWR/src/main/java/rwr/sim/SignalInterpreter.java:106-128 | total, and the result is always one of the four threat codes: "LCH" exactly for 9..10, "LCK" exactly for 7..8 and above 10, "HGH" exactly for 4..6, "LOW" exactly for 3 or less, negatives included |
| `SignalInterpreter.ConvertSignalsToContacts` | RWR/src/main/java/rwr/sim/SignalInterpreter.java:19-33 | returns one fresh, distinct contact per signal, in order. Contact i has signal i's direction, the symbol of its frequency and the threat code of its strength. The signals are only read |
| `SignalInterpreter.ConversionFixture` | RWR/src/test/java/rwr/sim/RwrApplicationTests.java:59-84 | (1,212,2), (2,241.2,4), (3,287.5,7) and (4,900,9) become (1,"21",LOW), (2,"22",HGH), (3,"25",LCK) and (4,"U",LCH) |
| `Receiver.NewEvents` | RWR/src/main/java/rwr/sim/MessageReceiver.java:62-71 | builds one fresh event per position, no two of them the same object. Event i holds signal i, contact i and the given time, and has id 0 |
| `Receiver.MessageReceiver.constructor` | RWR/src/main/java/rwr/sim/MessageReceiver.java:19-23 | a new receiver has made no display or repository call |
| `Receiver.MessageReceiver.ReceiveMessage` | RWR/src/main/java/rwr/sim/MessageReceiver.java:32-75 | a decode failure, a null list or an empty list makes no call. Otherwise exactly two calls are appended, in this order: one display post of the classified contacts, then one save. The posted contacts are fresh and pairwise distinct objects, and so are the saved events, one per signal; event i pairs signal i with contact i, and every event carries the timestamp taken on entry |
| `Simulation.NewSnapshot1` | RWR/src/main/java/rwr/sim/RwrApplication.java:76 | a one-signal snapshot list holding a fresh signal with the given values |
| `Simulation.NewSnapshot2` | RWR/src/main/java/rwr/sim/RwrApplication.java:77-78 | a two-signal snapshot list of two distinct fresh signals with the given values, in order |
| `Simulation.NewSnapshot3` | RWR/src/main/java/rwr/sim/RwrApplication.java:79-82 | a three-signal snapshot list of three pairwise distinct fresh signals with the given values, in order |
| `Simulation.RwrApplication.CreateSimData` | RWR/src/main/java/rwr/sim/RwrApplication.java:72-89 | returns the 11 snapshots of `SCENARIO` in order, made of fresh signals carrying exactly the listed direction, frequency and strength |
| `Simulation.ScenarioSizes` | RWR/src/main/java/rwr/sim/RwrApplication.java:74-88 | there are 11 snapshots with sizes 1,2,2,3,3,3,3,2,2,2,2, so none is empty |
| `Simulation.ScenarioInRange` | RWR/src/main/java/rwr/sim/RwrApplication.java:76-86 | every scenario signal has direction in [0,360] and strength in [1,10] |
| `Simulation.ScenarioTrack` | RWR/src/main/java/rwr/sim/RwrApplication.java:76-86 | the 212 signal comes first in every snapshot. Its direction strictly decreases from 90 to 50 and its strength never decreases, going from 2 to 9 |
| `Simulation.MessageSender.SendMessage` | RWR/src/main/java/rwr/sim/MessageSender.java:40-49 | every call records the batch as attempted, whether or not it then fails; the failure, if any, is the one the environment chose |
| `Simulation.RwrApplication.Pause` | RWR/src/main/java/rwr/sim/RwrApplication.java:103-110 | after the pause the interrupt flag is set exactly when it was set before or an interrupt arrived; nothing is reported |
| `Simulation.Failures` | RWR/src/main/java/rwr/sim/RwrApplication.java:116-125 | a run of sends reports at most one failure per send, and reports nothing exactly when every send succeeded |
| `Simulation.RwrApplication.RunSimulation` | RWR/src/main/java/rwr/sim/RwrApplication.java:99-127 | sends every snapshot exactly once, in list order, and then stops. Each failure is reported in order and the loop goes on. An interrupted pause sets the flag but the send still happens |

## Left out

- JSON encoding and decoding (MessageSender.java, SignalListWrapper.java) belong to the JSON library. Decoding is the `Option` parameter of `ReceiveMessage`. The encode/decode round trip is not modelled.
- The RabbitMQ transport (fanout exchange, queue, listener container) is not modelled. Sending only records the batch, and delivery is a call to `ReceiveMessage`.
- RwrGUI.java (JavaFX drawing, trigonometric placement, colour per threat) is not part of this model. A display post is a trace entry.
- `Platform.runLater` and the listener and simulation threads are not modelled as scheduling. The post is appended to the trace at the point where it is scheduled.
- Repositories (SignalEventRepository.java and the others) are empty JPA interfaces. A save is a trace entry. Id generation is not modelled: the model keeps every id at 0, while the store assigns ids on save to the events and, by cascade, to their signals and contacts, including the contacts already posted to the display.
- `Receiver.MessageReceiver.ReceiveMessage`: an exception from `saveAllAndFlush` propagates out of `receiveMessage`. It is not modelled beyond the order of the trace, which shows the display post already made.
- `Receiver.MessageReceiver.ReceiveMessage`: the error message and stack trace printed when decoding throws are not modelled. A decoding failure and a null list both appear as `None` and both make no call.
- `new Date()` is the `eventTime` parameter. The one shared `Date` object is modelled as one timestamp value copied into every event.
- `Thread.sleep(1000)` takes no time in `Pause`.
- `Simulation.RwrApplication.RunSimulation`: an interrupt arriving during the last send, after the last pause, is not modelled. In Java it would leave the flag set when the loop ends.
- Spring wiring is not modelled: bean factories, `main`, `start` with its JavaFX task and thread, `setRwrGUI`, `setSignalEventRepository`, `setMessageSender` and the static fields that hold them.
- Java `int` and `long` are unbounded integers here. No modelled operation computes with them, so no wrap-around can occur.
- Frequencies are exact reals. Java compares doubles, and the literal bounds such as 210.99 are themselves rounded to the nearest double. Behaviour within one unit in the last place of a bound is not modelled, and neither is NaN, which in Java fails every comparison and gives "U".
- `SignalInterpreter.InterpretSignalFrequency`: its own contract only says the result is non-empty. The table it implements is stated by `LadderMatchesTable` and the lemmas beside it.
- Null elements in a decoded list and a null sender would throw `NullPointerException`. They are excluded by the non-null element types.
- `Simulation.RwrApplication.RunSimulation`: a runtime exception other than the two that `sendMessage` declares would end the loop. The model only has those two failures.
