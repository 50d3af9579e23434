/** The RFP-number template of lib/rfp-utils.ts. */
module RfpNumbers {
  import opened Strings

  /** `generateRfpNumber`: the fixed prefix `GMDC/` and the five segments in
      the order location, department, short title, serial number, financial
      year, separated by `/`. Segments are inserted verbatim: nothing is
      trimmed or checked. */
  function GenerateRfpNumber(location: string, department: string, shortTitle: string,
                             serial: string, financialYear: string): (r: string)
    ensures |r| == 9 + |location| + |department| + |shortTitle| + |serial| + |financialYear|
  {
    "GMDC/" + location + "/" + department + "/" + shortTitle + "/" + serial + "/" + financialYear
  }

  /** The number is the six parts joined with `/`. */
  lemma RfpNumberIsJoin(location: string, department: string, shortTitle: string,
                        serial: string, financialYear: string)
    ensures GenerateRfpNumber(location, department, shortTitle, serial, financialYear)
            == Join(["GMDC", location, department, shortTitle, serial, financialYear], '/')
  {
    var ps := ["GMDC", location, department, shortTitle, serial, financialYear];
    assert Join(ps[5..], '/') == financialYear;
    assert Join(ps[4..], '/') == serial + "/" + financialYear by { assert ps[4..][1..] == ps[5..]; }
    assert Join(ps[3..], '/') == shortTitle + "/" + serial + "/" + financialYear by { assert ps[3..][1..] == ps[4..]; }
    assert Join(ps[2..], '/') == department + "/" + shortTitle + "/" + serial + "/" + financialYear
      by { assert ps[2..][1..] == ps[3..]; }
    assert Join(ps[1..], '/') == location + "/" + department + "/" + shortTitle + "/" + serial + "/" + financialYear
      by { assert ps[1..][1..] == ps[2..]; }
  }

  /** Each segment stands at its own fixed offset, unchanged. */
  lemma SegmentsVerbatim(location: string, department: string, shortTitle: string,
                         serial: string, financialYear: string)
    ensures var r := GenerateRfpNumber(location, department, shortTitle, serial, financialYear);
            var p1 := 5 + |location|;
            var p2 := p1 + 1 + |department|;
            var p3 := p2 + 1 + |shortTitle|;
            var p4 := p3 + 1 + |serial|;
            && r[..5] == "GMDC/"
            && r[5..p1] == location && r[p1] == '/'
            && r[p1 + 1..p2] == department && r[p2] == '/'
            && r[p2 + 1..p3] == shortTitle && r[p3] == '/'
            && r[p3 + 1..p4] == serial && r[p4] == '/'
            && r[p4 + 1..] == financialYear
  {
  }

  /** Without a `/` inside any segment, splitting the number on `/` recovers
      the prefix and the five segments. */
  lemma SplitRfpNumber(location: string, department: string, shortTitle: string,
                       serial: string, financialYear: string)
    requires '/' !in location && '/' !in department && '/' !in shortTitle
    requires '/' !in serial && '/' !in financialYear
    ensures Split(GenerateRfpNumber(location, department, shortTitle, serial, financialYear), '/')
            == ["GMDC", location, department, shortTitle, serial, financialYear]
  {
    var parts := ["GMDC", location, department, shortTitle, serial, financialYear];
    assert forall k :: 0 <= k < |parts| ==> '/' !in parts[k];
    RfpNumberIsJoin(location, department, shortTitle, serial, financialYear);
    SplitJoin(parts, '/');
  }

  /** Hence the numbering is injective on slash-free segments: equal numbers
      come from equal segments. */
  lemma RfpNumberInjective(l1: string, d1: string, t1: string, s1: string, f1: string,
                           l2: string, d2: string, t2: string, s2: string, f2: string)
    requires '/' !in l1 && '/' !in d1 && '/' !in t1 && '/' !in s1 && '/' !in f1
    requires '/' !in l2 && '/' !in d2 && '/' !in t2 && '/' !in s2 && '/' !in f2
    requires GenerateRfpNumber(l1, d1, t1, s1, f1) == GenerateRfpNumber(l2, d2, t2, s2, f2)
    ensures l1 == l2 && d1 == d2 && t1 == t2 && s1 == s2 && f1 == f2
  {
    SplitRfpNumber(l1, d1, t1, s1, f1);
    SplitRfpNumber(l2, d2, t2, s2, f2);
  }

  /** With a `/` inside a segment the numbering is no longer injective. */
  lemma SlashInSegmentCollides()
    ensures GenerateRfpNumber("A/B", "C", "D", "E", "F") == GenerateRfpNumber("A", "B/C", "D", "E", "F")
  {
  }

  lemma RfpNumberExample()
    ensures GenerateRfpNumber("Ahmedabad", "IT", "AITG", "01", "24-25") == "GMDC/Ahmedabad/IT/AITG/01/24-25"
  {
  }
}
