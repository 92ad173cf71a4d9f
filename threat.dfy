/** The threat levels an RWR contact can be in, each with the short code used
    on the display and in storage (Threat.java). */
module Threats {

  /** LOW < HIGH < LOCK < LAUNCH in severity; the code never compares levels,
      it only looks up their codes. A datatype value is immutable, so the code
      fixed at construction can never change. */
  datatype Threat = Low | High | Lock | Launch {

    /** Threat.getCode */
    function Code(): (c: string)
      ensures |c| == 3
    {
      match this
      case Low => "LOW"
      case High => "HGH"
      case Lock => "LCK"
      case Launch => "LCH"
    }
  }

  /** The codes of the four levels. */
  predicate IsThreatCode(s: string)
  {
    s in {Low.Code(), High.Code(), Lock.Code(), Launch.Code()}
  }

  /** A string is a threat code exactly when some level carries it. */
  lemma ThreatCodeIff(s: string)
    ensures IsThreatCode(s) <==> exists t: Threat :: t.Code() == s
  {
    if IsThreatCode(s) {
      if s == Low.Code() { assert Low.Code() == s; }
      else if s == High.Code() { assert High.Code() == s; }
      else if s == Lock.Code() { assert Lock.Code() == s; }
      else { assert Launch.Code() == s; }
    }
  }

  /** The code table of the enum. */
  lemma CodeTable()
    ensures Low.Code() == "LOW" && High.Code() == "HGH"
    ensures Lock.Code() == "LCK" && Launch.Code() == "LCH"
  {
  }

  /** The four codes are pairwise distinct, so a code names exactly one level. */
  lemma CodeInjective(a: Threat, b: Threat)
    ensures a.Code() == b.Code() <==> a == b
  {
  }
}
