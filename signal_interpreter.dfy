/** Classification of raw signals into displayable contacts
    (SignalInterpreter.java). */
module SignalInterpreter {
  import opened Wrappers
  import opened Threats
  import opened Signals
  import opened Contacts

  /** An inclusive frequency range and the emitter symbol it stands for. */
  datatype Band = Band(low: real, high: real, symbol: string)

  predicate Contains(b: Band, f: real)
  {
    b.low <= f <= b.high
  }

  /** The symbol of a frequency that no range covers. */
  const UNKNOWN: string := "U"

  /** The emitter table, in the order the ladder checks it. */
  const BANDS: seq<Band> := [
    Band(200.0, 210.99, "19"),
    Band(211.3, 230.45, "21"),
    Band(241.1, 249.8, "22"),
    Band(252.0, 261.57, "23"),
    Band(266.7, 272.0, "24"),
    Band(287.0, 299.3, "25"),
    Band(310.0, 320.0, "50"),
    Band(340.6, 351.2, "Tu"),
    Band(380.0, 400.0, "A"),
    Band(500.0, 600.0, "EW")
  ]

  /** First-match lookup in a table of ranges, falling through to UNKNOWN. */
  function Lookup(table: seq<Band>, f: real): (symbol: string)
  {
    if table == [] then UNKNOWN
    else if Contains(table[0], f) then table[0].symbol
    else Lookup(table[1..], f)
  }

  /** No frequency lies in two different ranges of the table. */
  ghost predicate Disjoint(table: seq<Band>)
  {
    forall i, j, f :: 0 <= i < |table| && 0 <= j < |table| && Contains(table[i], f) && Contains(table[j], f) ==> i == j
  }

  /** interpretSignalFrequency: the if/else ladder over the ten ranges; the
      symbol is never null (here: never empty). */
  function InterpretSignalFrequency(frequency: real): (symbol: string)
    ensures symbol != []
  {
    if 200.0 <= frequency <= 210.99 then "19"
    else if 211.3 <= frequency <= 230.45 then "21"
    else if 241.1 <= frequency <= 249.8 then "22"
    else if 252.0 <= frequency <= 261.57 then "23"
    else if 266.7 <= frequency <= 272.0 then "24"
    else if 287.0 <= frequency <= 299.3 then "25"
    else if 310.0 <= frequency <= 320.0 then "50"
    else if 340.6 <= frequency <= 351.2 then "Tu"
    else if 380.0 <= frequency <= 400.0 then "A"
    else if 500.0 <= frequency <= 600.0 then "EW"
    else "U"
  }

  /** interpretSignalStrength: the four-step ladder. Strength above 10 misses
      the LAUNCH clause and lands on LOCK; strength 3 or less, negatives
      included, is LOW. */
  function InterpretSignalStrength(strength: int): (code: string)
    ensures IsThreatCode(code)
    ensures code == Launch.Code() <==> 9 <= strength <= 10
    ensures code == Lock.Code() <==> 7 <= strength <= 8 || 10 < strength
    ensures code == High.Code() <==> 4 <= strength <= 6
    ensures code == Low.Code() <==> strength <= 3
  {
    if 9 <= strength <= 10 then Launch.Code()
    else if strength >= 7 then Lock.Code()
    else if strength >= 4 then High.Code()
    else Low.Code()
  }

  /** `contacts` is the classification of `signals`, position by position. */
  ghost predicate Classifies(contacts: seq<RwrContact>, signals: seq<Signal>)
    reads contacts, signals
  {
    |contacts| == |signals| &&
    forall i :: 0 <= i < |signals| ==>
      contacts[i].id == 0 &&
      contacts[i].direction == signals[i].direction &&
      contacts[i].symbol == Some(InterpretSignalFrequency(signals[i].frequency)) &&
      contacts[i].threatCd == Some(InterpretSignalStrength(signals[i].strength))
  }

  /** convertSignalsToContacts: one fresh contact per signal, in order; the
      signals are only read. */
  method ConvertSignalsToContacts(signals: seq<Signal>) returns (contacts: seq<RwrContact>)
    ensures Classifies(contacts, signals)
    ensures forall i :: 0 <= i < |contacts| ==> fresh(contacts[i])
    ensures forall i, j :: 0 <= i < j < |contacts| ==> contacts[i] != contacts[j]
  {
    contacts := [];
    for n := 0 to |signals|
      invariant |contacts| == n
      invariant forall i :: 0 <= i < n ==> fresh(contacts[i])
      invariant forall i, j :: 0 <= i < j < n ==> contacts[i] != contacts[j]
      invariant forall i :: 0 <= i < n ==>
        contacts[i].id == 0 &&
        contacts[i].direction == signals[i].direction &&
        contacts[i].symbol == Some(InterpretSignalFrequency(signals[i].frequency)) &&
        contacts[i].threatCd == Some(InterpretSignalStrength(signals[i].strength))
    {
      var signal := signals[n];
      var contact := new RwrContact();
      contact.SetDirection(signal.GetDirection());
      contact.SetSymbol(Some(InterpretSignalFrequency(signal.GetFrequency())));
      contact.SetThreatCd(Some(InterpretSignalStrength(signal.GetStrength())));
      contacts := contacts + [contact];
    }
  }

  // ---------------------------------------------------------------------
  // The lookup over any table of disjoint ranges

  /** A frequency inside a range of a disjoint table gets that range's symbol,
      wherever the range sits in the table. */
  lemma {:induction false} LookupHit(table: seq<Band>, f: real, k: nat)
    requires Disjoint(table)
    requires k < |table| && Contains(table[k], f)
    ensures Lookup(table, f) == table[k].symbol
  {
    if !Contains(table[0], f) {
      var rest := table[1..];
      assert Disjoint(rest) by {
        forall i, j, g | 0 <= i < |rest| && 0 <= j < |rest| && Contains(rest[i], g) && Contains(rest[j], g)
          ensures i == j
        {
          assert table[i + 1] == rest[i] && table[j + 1] == rest[j];
        }
      }
      assert table[k] == rest[k - 1];
      LookupHit(rest, f, k - 1);
    }
  }

  /** A frequency in no range of the table falls through to UNKNOWN. */
  lemma {:induction false} LookupMiss(table: seq<Band>, f: real)
    requires forall i :: 0 <= i < |table| ==> !Contains(table[i], f)
    ensures Lookup(table, f) == UNKNOWN
  {
    if table != [] {
      assert !Contains(table[0], f);
      var rest := table[1..];
      forall i | 0 <= i < |rest| ensures !Contains(rest[i], f) {
        assert rest[i] == table[i + 1];
      }
      LookupMiss(rest, f);
    }
  }

  /** Checking disjoint ranges in a different order gives the same symbol. */
  lemma LookupOrderIndependent(t1: seq<Band>, t2: seq<Band>, f: real)
    requires Disjoint(t1) && Disjoint(t2)
    requires multiset(t1) == multiset(t2)
    ensures Lookup(t1, f) == Lookup(t2, f)
  {
    if k :| 0 <= k < |t1| && Contains(t1[k], f) {
      assert t1[k] in multiset(t2);
      var m :| 0 <= m < |t2| && t2[m] == t1[k];
      LookupHit(t1, f, k);
      LookupHit(t2, f, m);
    } else {
      forall m | 0 <= m < |t2| ensures !Contains(t2[m], f) {
        assert t2[m] in multiset(t1);
        var k :| 0 <= k < |t1| && t1[k] == t2[m];
      }
      LookupMiss(t1, f);
      LookupMiss(t2, f);
    }
  }

  // ---------------------------------------------------------------------
  // The emitter table itself

  /** Each range ends below the start of the next one. */
  lemma BandsAscending()
    ensures forall i :: 0 <= i < |BANDS| ==> BANDS[i].low <= BANDS[i].high
    ensures forall i :: 0 <= i < |BANDS| - 1 ==> BANDS[i].high < BANDS[i + 1].low
  {
  }

  /** The ten ranges are pairwise disjoint. */
  lemma BandsDisjoint()
    ensures Disjoint(BANDS)
  {
  }

  /** The ladder is first-match lookup in the emitter table. */
  lemma LadderMatchesTable(f: real)
    ensures InterpretSignalFrequency(f) == Lookup(BANDS, f)
  {
    BandsDisjoint();
    if k :| 0 <= k < |BANDS| && Contains(BANDS[k], f) {
      LookupHit(BANDS, f, k);
    } else {
      LookupMiss(BANDS, f);
      assert !Contains(BANDS[0], f) && !Contains(BANDS[1], f) && !Contains(BANDS[2], f);
      assert !Contains(BANDS[3], f) && !Contains(BANDS[4], f) && !Contains(BANDS[5], f);
      assert !Contains(BANDS[6], f) && !Contains(BANDS[7], f) && !Contains(BANDS[8], f);
      assert !Contains(BANDS[9], f);
    }
  }

  /** A frequency inside the k-th range is classified with that range's symbol. */
  lemma SymbolOfBand(f: real, k: nat)
    requires k < |BANDS| && Contains(BANDS[k], f)
    ensures InterpretSignalFrequency(f) == BANDS[k].symbol
  {
    BandsDisjoint();
    LookupHit(BANDS, f, k);
    LadderMatchesTable(f);
  }

  /** The symbol is "U" exactly when no range contains the frequency. */
  lemma SymbolUnknownIff(f: real)
    ensures InterpretSignalFrequency(f) == UNKNOWN <==> forall k :: 0 <= k < |BANDS| ==> !Contains(BANDS[k], f)
  {
    if k :| 0 <= k < |BANDS| && Contains(BANDS[k], f) {
      SymbolOfBand(f, k);
    } else {
      LookupMiss(BANDS, f);
      LadderMatchesTable(f);
    }
  }

  /** Boundary and gap cases of the table: 268 lies in 266.7..272.0. */
  lemma FrequencyCases()
    ensures InterpretSignalFrequency(200.0) == "19" && InterpretSignalFrequency(210.99) == "19"
    ensures InterpretSignalFrequency(205.0) == "19" && InterpretSignalFrequency(212.0) == "21"
    ensures InterpretSignalFrequency(241.2) == "22" && InterpretSignalFrequency(268.0) == "24"
    ensures InterpretSignalFrequency(287.5) == "25" && InterpretSignalFrequency(395.0) == "A"
    ensures InterpretSignalFrequency(550.0) == "EW" && InterpretSignalFrequency(600.0) == "EW"
    ensures InterpretSignalFrequency(210.995) == "U" && InterpretSignalFrequency(265.0) == "U"
    ensures InterpretSignalFrequency(900.0) == "U" && InterpretSignalFrequency(-1.0) == "U"
  {
  }

  /** The conversion fixture of the unit tests. */
  method ConversionFixture() returns (contacts: seq<RwrContact>)
    ensures |contacts| == 4
    ensures contacts[0].direction == 1 && contacts[0].symbol == Some("21") && contacts[0].threatCd == Some(Low.Code())
    ensures contacts[1].direction == 2 && contacts[1].symbol == Some("22") && contacts[1].threatCd == Some(High.Code())
    ensures contacts[2].direction == 3 && contacts[2].symbol == Some("25") && contacts[2].threatCd == Some(Lock.Code())
    ensures contacts[3].direction == 4 && contacts[3].symbol == Some("U") && contacts[3].threatCd == Some(Launch.Code())
  {
    var s0 := new Signal(1, 212.0, 2);
    var s1 := new Signal(2, 241.2, 4);
    var s2 := new Signal(3, 287.5, 7);
    var s3 := new Signal(4, 900.0, 9);
    contacts := ConvertSignalsToContacts([s0, s1, s2, s3]);
  }
}
