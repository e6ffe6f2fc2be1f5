/** Runs of the processors over small directories, stated for any names
    carrying the right suffixes and any reader yielding the given traces. */
module Scenarios {
  import opened Results
  import opened Paths
  import opened Listing
  import opened ChannelFilter
  import opened MseedWriter
  import opened Surveys

  /** A trace of channel `ch` at `rate` whose interval parsed. */
  function Tr(ch: string, rate: Rate, data: Samples): TraceRec {
    TraceRec(Some(ch), rate, Some(0.001), data)
  }

  /** Enumerating a three-name listing in which the first two carry the suffix. */
  lemma TwoOfThree(dir: string, n1: string, n2: string, n3: string, ext: string)
    requires EndsWith(n1, ext) && EndsWith(n2, ext) && !EndsWith(n3, ext)
    ensures ReadFiles(dir, [n1, n2, n3], ext) == [Join(dir, n1), Join(dir, n2)]
  {
    assert [n1, n2, n3][1..] == [n2, n3];
    assert [n2, n3][1..] == [n3];
    assert [n3][1..] == [];
    calc {
      ReadFiles(dir, [n1, n2, n3], ext);
      [Join(dir, n1)] + ReadFiles(dir, [n2, n3], ext);
      [Join(dir, n1)] + ([Join(dir, n2)] + ReadFiles(dir, [n3], ext));
      { assert ReadFiles(dir, [n3], ext) == [] + ReadFiles(dir, [], ext); }
      [Join(dir, n1)] + ([Join(dir, n2)] + []);
      [Join(dir, n1), Join(dir, n2)];
    }
  }

  /** Enumerating a three-name listing in which only the last carries the suffix. */
  lemma LastOfThree(dir: string, n1: string, n2: string, n3: string, ext: string)
    requires !EndsWith(n1, ext) && !EndsWith(n2, ext) && EndsWith(n3, ext)
    ensures ReadFiles(dir, [n1, n2, n3], ext) == [Join(dir, n3)]
  {
    assert [n1, n2, n3][1..] == [n2, n3];
    assert [n2, n3][1..] == [n3];
    assert [n3][1..] == [];
    assert ReadFiles(dir, [n3], ext) == [Join(dir, n3)];
    assert ReadFiles(dir, [n2, n3], ext) == [Join(dir, n3)];
  }

  /** Names like "a2.seg2", "b2.seg2", "a3.seg2" against the passes e2 and e3:
      the first two are picked up by pass e2 only, the third by pass e3 only. */
  predicate PassNames(a2: string, b2: string, a3: string, e2: string, e3: string) {
    EndsWith(a2, e2) && EndsWith(b2, e2) && !EndsWith(a3, e2) &&
    !EndsWith(a2, e3) && !EndsWith(b2, e3) && EndsWith(a3, e3)
  }

  lemma PassFiles(dir: string, a2: string, b2: string, a3: string, e2: string, e3: string, read: Reader)
    requires PassNames(a2, b2, a3, e2, e3)
    ensures Files(InputDir(dir, [a2, b2, a3], read), e2) == [Join(dir, a2), Join(dir, b2)]
    ensures Files(InputDir(dir, [a2, b2, a3], read), e3) == [Join(dir, a3)]
  {
    TwoOfThree(dir, a2, b2, a3, e2);
    LastOfThree(dir, a2, b2, a3, e3);
  }

  /** A file holding one trace of channel `ch` lacks every other channel. */
  lemma SingleChannel(r: FileRead, ch: string, other: string, rate: Rate, data: Samples)
    requires r == Traces([Tr(ch, rate, data)]) && ch != other
    ensures Lacks(r, other)
  {
  }

  /** A pass whose files all lack one lateral channel writes nothing. */
  lemma PassWritesNothing(prefix: string, outDir: string, input: InputDir, ext: string, ch: string, expected: seq<string>)
    requires ch == "2" || ch == "3"
    requires Files(input, ext) == expected
    requires forall p :: p in expected ==> Lacks(input.read(p), ch)
    ensures LateralExtPlans(prefix, outDir, input, ext) == []
  {
    assert forall i :: 0 <= i < |Files(input, ext)| ==> Lacks(input.read(Files(input, ext)[i]), ch);
    MissingLateralChannel(prefix, outDir, input, ext, ch);
  }

  /** The lateral plans for two extensions are those of each, in order. */
  lemma LateralTwo(prefix: string, outDir: string, input: InputDir, exts: seq<string>)
    requires |exts| == 2
    ensures LateralPlans(prefix, outDir, input, exts) ==
            LateralExtPlans(prefix, outDir, input, exts[0]) + LateralExtPlans(prefix, outDir, input, exts[1])
  {
    var first := exts[..1];
    assert first[..0] == [] && first[0] == exts[0];
    var x1 := LateralExtPlans(prefix, outDir, input, exts[0]);
    assert LateralPlans(prefix, outDir, input, first) == LateralPlans(prefix, outDir, input, []) + x1;
  }

  /** Pass e2 lists two files holding only channel 2 and pass e3 one file
      holding only channel 3: each pass lacks one lateral channel, so neither
      writes. */
  lemma SplitChannels(prefix: string, outDir: string, input: InputDir, e2: string, e3: string,
                      p1: string, p2: string, p3: string, rate: Rate, data: Samples)
    requires Files(input, e2) == [p1, p2] && Files(input, e3) == [p3]
    requires input.read(p1) == Traces([Tr("2", rate, data)])
    requires input.read(p2) == Traces([Tr("2", rate, data)])
    requires input.read(p3) == Traces([Tr("3", rate, data)])
    ensures LateralExtPlans(prefix, outDir, input, e2) == []
    ensures LateralExtPlans(prefix, outDir, input, e3) == []
  {
    SingleChannel(input.read(p1), "2", "3", rate, data);
    SingleChannel(input.read(p2), "2", "3", rate, data);
    SingleChannel(input.read(p3), "3", "2", rate, data);
    PassWritesNothing(prefix, outDir, input, e2, "3", [p1, p2]);
    PassWritesNothing(prefix, outDir, input, e3, "2", [p3]);
  }

  /** Two "2.seg2" files holding only channel 2 and one "3.seg2" file holding
      only channel 3: the filter fails on zero matches in both passes and the
      CH survey writes nothing at all. */
  lemma ChannelsSplitAcrossPassesWriteNothing(dir: string, outDir: string, a2: string, b2: string, a3: string,
                                              read: Reader, rate: Rate, data: Samples)
    requires PassNames(a2, b2, a3, "2.seg2", "3.seg2")
    requires read(Join(dir, a2)) == Traces([Tr("2", rate, data)])
    requires read(Join(dir, b2)) == Traces([Tr("2", rate, data)])
    requires read(Join(dir, a3)) == Traces([Tr("3", rate, data)])
    ensures LateralPlans("CH", outDir, InputDir(dir, [a2, b2, a3], read), LateralExtensions) == []
  {
    var input := InputDir(dir, [a2, b2, a3], read);
    PassFiles(dir, a2, b2, a3, "2.seg2", "3.seg2", read);
    SplitChannels("CH", outDir, input, "2.seg2", "3.seg2", Join(dir, a2), Join(dir, b2), Join(dir, a3), rate, data);
    LateralTwo("CH", outDir, input, LateralExtensions);
  }

  /** Of two traces that both pass the visit, only the kept one is collected. */
  lemma KeptFirstOfTwo(a: TraceRec, b: TraceRec, ch: string, station: string)
    requires !Raises(a, ch) && !Raises(b, ch) && Keeps(a, ch) && !Keeps(b, ch)
    ensures FirstRaise([a, b], ch) == 2
    ensures KeptMatches([a, b][..FirstRaise([a, b], ch)], ch, station) == [ToMatch(a, station)]
  {
    assert [a, b][1..] == [b] && [b][1..] == [];
    assert FirstRaise([b], ch) == 1 + FirstRaise([], ch);
    assert [a, b][..2] == [a, b] && [a, b][..1] == [a] && [a][..0] == [];
    assert KeptMatches([a], ch, station) == KeptMatches([], ch, station) + [ToMatch(a, station)];
  }

  lemma KeptSecondOfTwo(a: TraceRec, b: TraceRec, ch: string, station: string)
    requires !Raises(a, ch) && !Raises(b, ch) && !Keeps(a, ch) && Keeps(b, ch)
    ensures FirstRaise([a, b], ch) == 2
    ensures KeptMatches([a, b][..FirstRaise([a, b], ch)], ch, station) == [ToMatch(b, station)]
  {
    assert [a, b][1..] == [b] && [b][1..] == [];
    assert FirstRaise([b], ch) == 1 + FirstRaise([], ch);
    assert [a, b][..2] == [a, b] && [a, b][..1] == [a] && [a][..0] == [];
    assert KeptMatches([a], ch, station) == KeptMatches([], ch, station) + [];
  }

  /** A pass listing one file is that file's contribution. */
  lemma MatchedOne(p: string, read: Reader, ch: string)
    ensures Matched([p], read, ch) == FileMatches(read, p, ch)
  {
    assert [p][..0] == [];
  }

  /** A pass listing two files collects the first's matches, then the second's. */
  lemma MatchedTwo(p: string, q: string, read: Reader, ch: string)
    ensures Matched([p, q], read, ch) == FileMatches(read, p, ch) + FileMatches(read, q, ch)
  {
    assert [p, q][..1] == [p];
    MatchedOne(p, read, ch);
  }

  /** One match: its pair, its rate and its interval. */
  lemma OneMatch(m: Match)
    ensures Pairs([m]) == [(m.data, m.station)] && RateSet([m]) == {m.rate} && IntervalSet([m]) == {m.interval}
  {
    assert [m][..0] == [];
  }

  /** A file holding a channel 2 trace and then a channel 3 trace yields one
      match for each channel. */
  lemma FileBothChannels(read: Reader, p: string, rate: Rate, d2: Samples, d3: Samples)
    requires read(p) == Traces([Tr("2", rate, d2), Tr("3", rate, d3)])
    ensures Matched([p], read, "2") == [Match(d2, Basename(p), rate, 0.001)]
    ensures Matched([p], read, "3") == [Match(d3, Basename(p), rate, 0.001)]
  {
    var t2, t3 := Tr("2", rate, d2), Tr("3", rate, d3);
    KeptFirstOfTwo(t2, t3, "2", Basename(p));
    KeptSecondOfTwo(t2, t3, "3", Basename(p));
    MatchedOne(p, read, "2");
    MatchedOne(p, read, "3");
  }

  /** The plan for a single match. */
  lemma PlanForSingle(prefix: string, outDir: string, template: string, m: Match)
    ensures PlanFor(prefix, outDir, template, [m]) ==
            [Planned(Join(outDir, OutputName(prefix, template)), [(m.data, m.station)], m.rate, {m.interval})]
    ensures |RateSet([m])| == 1
  {
    OneMatch(m);
  }

  /** A pass listing one file that holds a channel 2 trace and then a channel 3
      trace at the same rate writes the X file from the first and the Y file
      from the second, both tagged with the file's base name. */
  lemma OneFileBothChannels(prefix: string, outDir: string, input: InputDir, ext: string, p: string,
                            rate: Rate, d2: Samples, d3: Samples)
    requires Files(input, ext) == [p]
    requires input.read(p) == Traces([Tr("2", rate, d2), Tr("3", rate, d3)])
    ensures LateralExtPlans(prefix, outDir, input, ext) ==
            [Planned(Join(outDir, OutputName(prefix, XName(ext))), [(d2, Basename(p))], rate, {0.001}),
             Planned(Join(outDir, OutputName(prefix, YName(ext))), [(d3, Basename(p))], rate, {0.001})]
  {
    FileBothChannels(input.read, p, rate, d2, d3);
    PlanForSingle(prefix, outDir, XName(ext), Match(d2, Basename(p), rate, 0.001));
    PlanForSingle(prefix, outDir, YName(ext), Match(d3, Basename(p), rate, 0.001));
  }

  /** Two passes where the first lists one file holding both lateral channels
      and the second lists none: only the first pass writes, X then Y. */
  lemma FirstPassOnly(prefix: string, outDir: string, input: InputDir, exts: seq<string>, p: string,
                      rate: Rate, d2: Samples, d3: Samples)
    requires |exts| == 2 && Files(input, exts[0]) == [p] && Files(input, exts[1]) == []
    requires input.read(p) == Traces([Tr("2", rate, d2), Tr("3", rate, d3)])
    ensures LateralPlans(prefix, outDir, input, exts) ==
            [Planned(Join(outDir, OutputName(prefix, XName(exts[0]))), [(d2, Basename(p))], rate, {0.001}),
             Planned(Join(outDir, OutputName(prefix, YName(exts[0]))), [(d3, Basename(p))], rate, {0.001})]
  {
    OneFileBothChannels(prefix, outDir, input, exts[0], p, rate, d2, d3);
    LateralTwo(prefix, outDir, input, exts);
  }

  /** A listing of one "2.seg2" file holding both lateral channels: the
      "2.seg2" pass writes the X and Y files and the "3.seg2" pass, finding no
      file, writes nothing. */
  lemma BothChannelsInOneFile(dir: string, outDir: string, a2: string, read: Reader,
                              rate: Rate, d2: Samples, d3: Samples)
    requires EndsWith(a2, "2.seg2") && !EndsWith(a2, "3.seg2") && '/' !in a2
    requires read(Join(dir, a2)) == Traces([Tr("2", rate, d2), Tr("3", rate, d3)])
    ensures LateralPlans("CH", outDir, InputDir(dir, [a2], read), LateralExtensions) ==
            [Planned(Join(outDir, OutputName("CH", XName("2.seg2"))), [(d2, a2)], rate, {0.001}),
             Planned(Join(outDir, OutputName("CH", YName("2.seg2"))), [(d3, a2)], rate, {0.001})]
  {
    OneName(dir, a2, "2.seg2");
    NoName(dir, a2, "3.seg2");
    BasenameOfJoin(dir, a2);
    FirstPassOnly("CH", outDir, InputDir(dir, [a2], read), LateralExtensions, Join(dir, a2), rate, d2, d3);
  }

  /** A vertical pass listing one file that holds one channel 1 trace writes
      the V file from it, tagged with the file's base name. */
  lemma OneVerticalFile(outDir: string, input: InputDir, ext: string, p: string, rate: Rate, d: Samples)
    requires Files(input, ext) == [p]
    requires input.read(p) == Traces([Tr("1", rate, d)])
    ensures VerticalPlans(outDir, input, [ext]) ==
            [Planned(Join(outDir, OutputName("DH", VName(ext))), [(d, Basename(p))], rate, {0.001})]
  {
    SingleKept(input.read, p, Tr("1", rate, d), "1");
    MatchedOne(p, input.read, "1");
    PlanForSingle("DH", outDir, VName(ext), Match(d, Basename(p), rate, 0.001));
    assert [ext][..0] == [];
  }

  /** A DH listing of one "1.seg2" file holding a channel 1 trace: the
      vertical phase writes the V file and the lateral phase, finding no
      "2.seg2" or "3.seg2" file, writes nothing. */
  lemma VerticalOnlyDirectory(dir: string, outDir: string, a1: string, read: Reader, rate: Rate, d: Samples)
    requires EndsWith(a1, "1.seg2") && !EndsWith(a1, "2.seg2") && !EndsWith(a1, "3.seg2") && '/' !in a1
    requires read(Join(dir, a1)) == Traces([Tr("1", rate, d)])
    ensures VerticalPlans(outDir, InputDir(dir, [a1], read), VerticalExtensions) +
            LateralPlans("DH", outDir, InputDir(dir, [a1], read), LateralExtensions) ==
            [Planned(Join(outDir, OutputName("DH", VName("1.seg2"))), [(d, a1)], rate, {0.001})]
  {
    var input := InputDir(dir, [a1], read);
    OneName(dir, a1, "1.seg2");
    NoName(dir, a1, "2.seg2");
    NoName(dir, a1, "3.seg2");
    BasenameOfJoin(dir, a1);
    OneVerticalFile(outDir, input, "1.seg2", Join(dir, a1), rate, d);
    LateralTwo("DH", outDir, input, LateralExtensions);
  }

  lemma OneName(dir: string, n: string, ext: string)
    requires EndsWith(n, ext)
    ensures ReadFiles(dir, [n], ext) == [Join(dir, n)]
  {
    assert [n][1..] == [];
  }

  lemma NoName(dir: string, n: string, ext: string)
    requires !EndsWith(n, ext)
    ensures ReadFiles(dir, [n], ext) == []
  {
    assert [n][1..] == [];
  }

  /** A file holding one kept trace contributes exactly that trace. */
  lemma SingleKept(read: Reader, p: string, t: TraceRec, ch: string)
    requires read(p) == Traces([t]) && Keeps(t, ch)
    ensures FileMatches(read, p, ch) == [ToMatch(t, Basename(p))]
  {
    assert [t][1..] == [];
    assert FirstRaise([t], ch) == 1 + FirstRaise([], ch);
    assert [t][..1] == [t] && [t][..0] == [];
    assert KeptMatches([t], ch, Basename(p)) == KeptMatches([], ch, Basename(p)) + [ToMatch(t, Basename(p))];
  }

  /** Two matches at different rates: two rates are seen. */
  lemma TwoRates(m1: Match, m2: Match)
    requires m1.rate != m2.rate
    ensures RateSet([m1, m2]) == {m1.rate, m2.rate} && |RateSet([m1, m2])| == 2
  {
    OneMatch(m1);
    assert [m1, m2] == [m1] + [m2];
    Snoc([m1], m2);
  }

  /** Two files whose channel 2 traces disagree on the sampling rate: the
      filter sees both rates and fails the single-rate check. */
  lemma MixedRatesRejected(read: Reader, p: string, q: string, r1: Rate, r2: Rate, d1: Samples, d2: Samples)
    requires read(p) == Traces([Tr("2", r1, d1)]) && read(q) == Traces([Tr("2", r2, d2)]) && r1 != r2
    ensures RateSet(Matched([p, q], read, "2")) == {r1, r2}
    ensures |RateSet(Matched([p, q], read, "2"))| != 1
  {
    var m1, m2 := ToMatch(Tr("2", r1, d1), Basename(p)), ToMatch(Tr("2", r2, d2), Basename(q));
    SingleKept(read, p, Tr("2", r1, d1), "2");
    SingleKept(read, q, Tr("2", r2, d2), "2");
    MatchedTwo(p, q, read, "2");
    assert Matched([p, q], read, "2") == [m1, m2];
    TwoRates(m1, m2);
  }

  /** A channel 2 trace, then a channel 2 trace whose interval does not parse,
      then another channel 2 trace: the conversion raises on the second, the
      rest of the file is abandoned, and the first trace stays collected. */
  lemma MidFileFailureKeepsEarlier(read: Reader, p: string, rate: Rate, d1: Samples, d2: Samples, d3: Samples)
    requires read(p) == Traces([Tr("2", rate, d1), TraceRec(Some("2"), rate, None, d2), Tr("2", rate, d3)])
    ensures FileMatches(read, p, "2") == [Match(d1, Basename(p), rate, 0.001)]
  {
    var ts := read(p).traces;
    assert ts[1..] == [ts[1], ts[2]];
    assert FirstRaise(ts, "2") == 1 + FirstRaise(ts[1..], "2") == 1;
    assert ts[..1] == [ts[0]] && [ts[0]][..0] == [];
    assert KeptMatches([ts[0]], "2", Basename(p)) == KeptMatches([], "2", Basename(p)) + [ToMatch(ts[0], Basename(p))];
  }
}
