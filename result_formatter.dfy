/** The post-processing of one inference result in `predict`: the raw, index-aligned
    boxes, labels and scores of the detector are filtered by a fixed confidence
    threshold, each kept entry becomes a detection record with a class name, and the
    detections are summarised into counts and a safety verdict. */
module ResultFormatter {

  /** The confidence threshold; an entry is kept when its score is at least this. */
  const Threshold: real := 0.5

  /** One predicted box: its four coordinates in the order the detector emits them. */
  datatype Box = Box(c0: real, c1: real, c2: real, c3: real)

  /** The bounding-box record of a reported detection. */
  datatype BBox = BBox(xMin: real, yMin: real, xMax: real, yMax: real)

  /** One reported detection: class name, confidence and bounding box. */
  datatype Detection = Detection(className: string, confidence: real, bbox: BBox)

  /** One row of the zipped raw output: `boxes[i]`, `labels[i]`, `scores[i]`. */
  datatype Entry = Entry(box: Box, classId: int, score: real)

  /** The per-image summary of the detections. */
  datatype Summary = Summary(
    totalDetections: nat,
    helmetCount: nat,
    headWithoutHelmetCount: nat,
    safetyStatus: string)

  /** An entry survives the filter when its score reaches the threshold (inclusive). */
  predicate Kept(e: Entry) {
    e.score >= Threshold
  }

  /** The fixed label table: 0, 1 and 2 have names, every other label is "unknown". */
  function ClassName(classId: int): (name: string)
    ensures name == "background" <==> classId == 0
    ensures name == "helmet" <==> classId == 1
    ensures name == "head" <==> classId == 2
    ensures name == "unknown" <==> (classId < 0 || classId > 2)
  {
    if classId == 0 then "background"
    else if classId == 1 then "helmet"
    else if classId == 2 then "head"
    else "unknown"
  }

  /** The detection record built from one kept entry. */
  function ToDetection(e: Entry): Detection {
    Detection(ClassName(e.classId), e.score, BBox(e.box.c0, e.box.c1, e.box.c2, e.box.c3))
  }

  /** The smaller of two lengths. */
  function Min(a: nat, b: nat): nat {
    if a <= b then a else b
  }

  /** Python's `zip`: rows are aligned by index and the result stops at the shortest input. */
  function Zip(boxes: seq<Box>, labels: seq<int>, scores: seq<real>): (z: seq<Entry>)
    ensures |z| <= |boxes| && |z| <= |labels| && |z| <= |scores|
    ensures |z| == |boxes| || |z| == |labels| || |z| == |scores|
    ensures forall i :: 0 <= i < |z| ==> z[i] == Entry(boxes[i], labels[i], scores[i])
  {
    var n := Min(|boxes|, Min(|labels|, |scores|));
    seq(n, i requires 0 <= i < n => Entry(boxes[i], labels[i], scores[i]))
  }

  /** The detections list the loop builds: kept entries, in input order, as records.
      Defined from the last entry so that it follows the appending loop step by step. */
  function Formatted(entries: seq<Entry>): (ds: seq<Detection>)
    ensures |ds| <= |entries|
  {
    if entries == [] then []
    else
      var last := entries[|entries| - 1];
      Formatted(entries[..|entries| - 1]) + (if Kept(last) then [ToDetection(last)] else [])
  }

  /** Reference definition: the indices of the kept entries, in increasing order. */
  function KeptIndices(entries: seq<Entry>): (ix: seq<nat>)
    ensures forall k :: 0 <= k < |ix| ==> ix[k] < |entries| && Kept(entries[ix[k]])
    ensures forall k, m :: 0 <= k < m < |ix| ==> ix[k] < ix[m]
    ensures forall i :: 0 <= i < |entries| && Kept(entries[i]) ==> i in ix
  {
    if entries == [] then []
    else
      var n := |entries| - 1;
      KeptIndices(entries[..n]) + (if Kept(entries[n]) then [n] else [])
  }

  /** The set of kept indices. */
  function KeptSet(entries: seq<Entry>): set<nat> {
    set i: nat | i < |entries| && Kept(entries[i])
  }

  /** The set of kept indices whose label is `classId`. */
  function KeptLabelSet(entries: seq<Entry>, classId: int): set<nat> {
    set i: nat | i < |entries| && Kept(entries[i]) && entries[i].classId == classId
  }

  /** The detections loop: walks the zipped rows and appends a record for every
      row whose score reaches the threshold. */
  method BuildDetections(boxes: seq<Box>, labels: seq<int>, scores: seq<real>)
    returns (detections: seq<Detection>)
    ensures detections == Formatted(Zip(boxes, labels, scores))
  {
    ghost var rows := Zip(boxes, labels, scores);
    var n := Min(|boxes|, Min(|labels|, |scores|));
    detections := [];
    var i := 0;
    while i < n
      invariant 0 <= i <= n
      invariant detections == Formatted(rows[..i])
    {
      if scores[i] >= Threshold {
        detections := detections + [ToDetection(Entry(boxes[i], labels[i], scores[i]))];
      }
      assert rows[..i + 1][..i] == rows[..i];
      i := i + 1;
    }
    assert rows[..n] == rows;
  }

  /** Number of detections whose class is `name` (a generator-expression sum). */
  function CountClass(ds: seq<Detection>, name: string): (n: nat)
    ensures n <= |ds|
  {
    if ds == [] then 0
    else CountClass(ds[..|ds| - 1], name) + (if ds[|ds| - 1].className == name then 1 else 0)
  }

  /** The summary block of the response. */
  function Summarize(ds: seq<Detection>): (s: Summary)
    ensures s.totalDetections == |ds|
    ensures s.helmetCount + s.headWithoutHelmetCount <= s.totalDetections
    ensures s.safetyStatus == "SAFE" <==> s.headWithoutHelmetCount == 0
    ensures s.safetyStatus == "UNSAFE" <==> s.headWithoutHelmetCount > 0
  {
    HelmetAndHeadCounts(ds);
    var helmets := CountClass(ds, "helmet");
    var heads := CountClass(ds, "head");
    Summary(|ds|, helmets, heads, if heads == 0 then "SAFE" else "UNSAFE")
  }

  /** Helmet and head counts never exceed the total, and they make up the total exactly
      when every detection is a helmet or a head. */
  lemma {:induction false} HelmetAndHeadCounts(ds: seq<Detection>)
    ensures CountClass(ds, "helmet") + CountClass(ds, "head") <= |ds|
    ensures CountClass(ds, "helmet") + CountClass(ds, "head") == |ds|
            <==> forall d :: d in ds ==> d.className == "helmet" || d.className == "head"
  {
    if ds != [] {
      var init := ds[..|ds| - 1];
      HelmetAndHeadCounts(init);
      assert ds == init + [ds[|ds| - 1]];
    }
  }

  /** The k-th detection is the record of the k-th kept entry: order is preserved and
      nothing but kept entries is reported. */
  lemma {:induction false} FormattedMatchesKeptIndices(entries: seq<Entry>)
    ensures |Formatted(entries)| == |KeptIndices(entries)|
    ensures forall k :: 0 <= k < |Formatted(entries)| ==>
              Formatted(entries)[k] == ToDetection(entries[KeptIndices(entries)[k]])
  {
    if entries != [] {
      var n := |entries| - 1;
      var init := entries[..n];
      FormattedMatchesKeptIndices(init);
      var ds, ix := Formatted(entries), KeptIndices(entries);
      var ds0, ix0 := Formatted(init), KeptIndices(init);
      var kept := Kept(entries[n]);
      assert ds == ds0 + (if kept then [ToDetection(entries[n])] else []);
      assert ix == ix0 + (if kept then [n] else []);
      forall k | 0 <= k < |ds|
        ensures ds[k] == ToDetection(entries[ix[k]])
      {
        if k < |ds0| {
          assert ds[k] == ds0[k] && ix[k] == ix0[k];
          assert init[ix0[k]] == entries[ix0[k]];
        } else {
          assert ds[k] == ToDetection(entries[n]) && ix[k] == n;
        }
      }
    }
  }

  /** Field by field, the k-th detection carries the class name of its entry's label,
      its score as confidence and its box coordinates in order; its index in the input
      is the k-th kept index, and its confidence reaches the threshold. */
  lemma DetectionFromEntry(entries: seq<Entry>, k: nat)
    requires k < |Formatted(entries)|
    ensures |KeptIndices(entries)| == |Formatted(entries)|
    ensures KeptIndices(entries)[k] < |entries|
    ensures Formatted(entries)[k].className == ClassName(entries[KeptIndices(entries)[k]].classId)
    ensures Formatted(entries)[k].confidence == entries[KeptIndices(entries)[k]].score >= Threshold
    ensures Formatted(entries)[k].bbox.xMin == entries[KeptIndices(entries)[k]].box.c0
    ensures Formatted(entries)[k].bbox.yMin == entries[KeptIndices(entries)[k]].box.c1
    ensures Formatted(entries)[k].bbox.xMax == entries[KeptIndices(entries)[k]].box.c2
    ensures Formatted(entries)[k].bbox.yMax == entries[KeptIndices(entries)[k]].box.c3
  {
    FormattedMatchesKeptIndices(entries);
  }

  /** The threshold filter: every reported detection reaches the threshold, and an
      entry's record is reported exactly when the entry reaches it. */
  lemma ThresholdFilter(entries: seq<Entry>)
    ensures forall d :: d in Formatted(entries) ==> d.confidence >= Threshold
    ensures forall i :: 0 <= i < |entries| ==>
              (ToDetection(entries[i]) in Formatted(entries) <==> Kept(entries[i]))
  {
    FormattedMatchesKeptIndices(entries);
    var ds, ix := Formatted(entries), KeptIndices(entries);
    forall i | 0 <= i < |entries| && Kept(entries[i])
      ensures ToDetection(entries[i]) in ds
    {
      var k :| 0 <= k < |ix| && ix[k] == i;
      assert ds[k] == ToDetection(entries[i]);
    }
  }

  /** The kept-index sets of a sequence are those of its prefix, plus the last index
      when that row qualifies. */
  lemma KeptSetSplit(entries: seq<Entry>, classId: int)
    requires entries != []
    ensures var n := |entries| - 1;
            KeptSet(entries) == KeptSet(entries[..n]) + (if Kept(entries[n]) then {n} else {})
    ensures var n := |entries| - 1;
            KeptLabelSet(entries, classId)
            == KeptLabelSet(entries[..n], classId)
               + (if Kept(entries[n]) && entries[n].classId == classId then {n} else {})
  {
  }

  /** The total is the number of input rows whose score reaches the threshold. */
  lemma {:induction false} TotalIsKeptCount(entries: seq<Entry>)
    ensures |Formatted(entries)| == |KeptSet(entries)|
  {
    if entries != [] {
      var n := |entries| - 1;
      TotalIsKeptCount(entries[..n]);
      KeptSetSplit(entries, 0);
      assert n !in KeptSet(entries[..n]);
    }
  }

  /** For a named label, the number of detections of that class is the number of kept
      rows carrying that label. */
  lemma {:induction false} ClassCountIsKeptLabelCount(entries: seq<Entry>, classId: int)
    requires 0 <= classId <= 2
    ensures CountClass(Formatted(entries), ClassName(classId)) == |KeptLabelSet(entries, classId)|
  {
    if entries != [] {
      var n := |entries| - 1;
      var init := entries[..n];
      ClassCountIsKeptLabelCount(init, classId);
      KeptSetSplit(entries, classId);
      assert n !in KeptLabelSet(init, classId);
      var ds := Formatted(entries);
      if Kept(entries[n]) {
        assert ds[..|ds| - 1] == Formatted(init);
        assert ds[|ds| - 1].className == ClassName(entries[n].classId);
        assert ds[|ds| - 1].className == ClassName(classId) <==> entries[n].classId == classId;
      } else {
        assert ds == Formatted(init);
      }
    }
  }

  /** The summary of a whole inference result, in terms of the raw rows: the total,
      helmet and head counts are the numbers of kept rows overall, with label 1 and
      with label 2, and the verdict is "SAFE" exactly when no kept row has label 2. */
  lemma SummaryOfEntries(entries: seq<Entry>)
    ensures Summarize(Formatted(entries)).totalDetections == |KeptSet(entries)|
    ensures Summarize(Formatted(entries)).helmetCount == |KeptLabelSet(entries, 1)|
    ensures Summarize(Formatted(entries)).headWithoutHelmetCount == |KeptLabelSet(entries, 2)|
    ensures Summarize(Formatted(entries)).safetyStatus == "SAFE"
            <==> forall i :: 0 <= i < |entries| && Kept(entries[i]) ==> entries[i].classId != 2
  {
    TotalIsKeptCount(entries);
    ClassCountIsKeptLabelCount(entries, 1);
    ClassCountIsKeptLabelCount(entries, 2);
    if exists i :: 0 <= i < |entries| && Kept(entries[i]) && entries[i].classId == 2 {
      var i :| 0 <= i < |entries| && Kept(entries[i]) && entries[i].classId == 2;
      assert i in KeptLabelSet(entries, 2);
    } else {
      assert KeptLabelSet(entries, 2) == {};
    }
  }

  /** Helmet and head counts add up to the total exactly when every kept row has label
      1 or 2; background (label 0) and unknown labels are reported but counted in neither. */
  lemma CountsCoverTotal(entries: seq<Entry>)
    ensures var s := Summarize(Formatted(entries));
            s.helmetCount + s.headWithoutHelmetCount == s.totalDetections
            <==> forall i :: 0 <= i < |entries| && Kept(entries[i]) ==>
                   entries[i].classId == 1 || entries[i].classId == 2
  {
    var ds := Formatted(entries);
    HelmetAndHeadCounts(ds);
    ThresholdFilter(entries);
    FormattedMatchesKeptIndices(entries);
    var ix := KeptIndices(entries);
    if forall i :: 0 <= i < |entries| && Kept(entries[i]) ==>
         entries[i].classId == 1 || entries[i].classId == 2 {
      forall d | d in ds
        ensures d.className == "helmet" || d.className == "head"
      {
        var k :| 0 <= k < |ds| && ds[k] == d;
        assert d == ToDetection(entries[ix[k]]);
      }
    }
  }

  /** With no row at or above the threshold the summary is all zeros and "SAFE";
      conversely a zero total means no row reached the threshold. */
  lemma NothingAboveThreshold(entries: seq<Entry>)
    ensures (forall i :: 0 <= i < |entries| ==> !Kept(entries[i]))
            <==> Summarize(Formatted(entries)) == Summary(0, 0, 0, "SAFE")
  {
    SummaryOfEntries(entries);
    if forall i :: 0 <= i < |entries| ==> !Kept(entries[i]) {
      assert KeptSet(entries) == {};
      assert KeptLabelSet(entries, 1) == {};
      assert KeptLabelSet(entries, 2) == {};
    } else {
      var i :| 0 <= i < |entries| && Kept(entries[i]);
      assert i in KeptSet(entries);
    }
  }

  /** The two-person scenario: an unhelmeted head at 0.92, a helmet at 0.81 and a row
      below the threshold give two detections, one helmet, one head, "UNSAFE". */
  lemma ScenarioOneHelmetOneHead(b1: Box, b2: Box, b3: Box)
    ensures var entries := [Entry(b1, 2, 0.92), Entry(b2, 1, 0.81), Entry(b3, 1, 0.3)];
            Summarize(Formatted(entries)) == Summary(2, 1, 1, "UNSAFE")
  {
    var e0, e1, e2 := Entry(b1, 2, 0.92), Entry(b2, 1, 0.81), Entry(b3, 1, 0.3);
    var head, helmet := ToDetection(e0), ToDetection(e1);
    ScenarioDetections(e0, e1, e2);
    assert head.className == "head" && helmet.className == "helmet";
    assert [head, helmet][..1] == [head];
    assert CountClass([head], "helmet") == 0 by {
      assert [head][..0] == [];
    }
    assert CountClass([head], "head") == 1 by {
      assert [head][..0] == [];
    }
  }

  lemma ScenarioDetections(e0: Entry, e1: Entry, e2: Entry)
    requires Kept(e0) && Kept(e1) && !Kept(e2)
    ensures Formatted([e0, e1, e2]) == [ToDetection(e0), ToDetection(e1)]
  {
    assert [e0][..0] == [];
    assert Formatted([e0]) == [ToDetection(e0)];
    assert [e0, e1][..1] == [e0];
    assert Formatted([e0, e1]) == [ToDetection(e0), ToDetection(e1)];
    assert [e0, e1, e2][..2] == [e0, e1];
  }
}
