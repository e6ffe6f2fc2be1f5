/** The survey processors `process_files_ch` and `process_files_dh`: for each
    extension, enumerate, filter, and write the channel files. */
module Surveys {
  import opened Paths
  import opened Listing
  import opened ChannelFilter
  import opened MseedWriter
  import opened Seqs

  /** The lateral passes (channels 2 and 3) used by both surveys, and the
      vertical pass (channel 1) used by the downhole survey. */
  const LateralExtensions: seq<string> := ["2.seg2", "3.seg2"]
  const VerticalExtensions: seq<string> := ["1.seg2"]

  /** The input directory: its path, its listing and what reading each path
      yields. */
  datatype InputDir = InputDir(path: string, listing: seq<string>, read: Reader)

  function Files(input: InputDir, ext: string): seq<string> {
    ReadFiles(input.path, input.listing, ext)
  }

  /** A file the processors are to write: its path, its (samples, station)
      pairs, its rate, and the intervals its delta may be taken from (the
      filter returns an arbitrary one of the intervals it saw). */
  datatype Planned = Planned(path: string, pairs: seq<(Samples, string)>, rate: Rate, intervals: set<Interval>)

  ghost predicate WrittenAs(f: MseedFile, p: Planned) {
    f.path == p.path && exists delta :: delta in p.intervals && f.traces == StreamOf(p.pairs, p.rate, delta)
  }

  ghost predicate WrittenAsAll(fs: seq<MseedFile>, ps: seq<Planned>) {
    |fs| == |ps| && forall k :: 0 <= k < |fs| ==> WrittenAs(fs[k], ps[k])
  }

  /** What `create_mseed` writes for the matches `ms`: nothing when there are
      none, otherwise one file named `<prefix>_<template>`. */
  function PlanFor(prefix: string, outDir: string, template: string, ms: seq<Match>): seq<Planned> {
    if ms == [] then []
    else [Planned(Join(outDir, OutputName(prefix, template)), Pairs(ms), ms[0].rate, IntervalSet(ms))]
  }

  function XName(ext: string): string { "Channel_X_" + ext + ".mseed" }
  function YName(ext: string): string { "Channel_Y_" + ext + ".mseed" }
  function VName(ext: string): string { "Channel_V_" + ext + ".mseed" }

  /** One lateral extension: nothing when no file carries it or when either
      lateral channel fails the single-rate check; otherwise X, then Y. */
  function LateralExtPlans(prefix: string, outDir: string, input: InputDir, ext: string): seq<Planned> {
    var files := Files(input, ext);
    if files == [] then []
    else
      var x := Matched(files, input.read, "2");
      var y := Matched(files, input.read, "3");
      if |RateSet(x)| != 1 || |RateSet(y)| != 1 then []
      else PlanFor(prefix, outDir, XName(ext), x) + PlanFor(prefix, outDir, YName(ext), y)
  }

  function LateralPlans(prefix: string, outDir: string, input: InputDir, exts: seq<string>): seq<Planned>
    decreases |exts|
  {
    if exts == [] then []
    else LateralPlans(prefix, outDir, input, exts[..|exts| - 1]) + LateralExtPlans(prefix, outDir, input, exts[|exts| - 1])
  }

  /** One vertical extension: nothing when no file carries it or channel 1
      fails the single-rate check; otherwise the V file. */
  function VerticalExtPlans(outDir: string, input: InputDir, ext: string): seq<Planned> {
    var files := Files(input, ext);
    if files == [] then []
    else
      var v := Matched(files, input.read, "1");
      if |RateSet(v)| != 1 then [] else PlanFor("DH", outDir, VName(ext), v)
  }

  function VerticalPlans(outDir: string, input: InputDir, exts: seq<string>): seq<Planned>
    decreases |exts|
  {
    if exts == [] then []
    else VerticalPlans(outDir, input, exts[..|exts| - 1]) + VerticalExtPlans(outDir, input, exts[|exts| - 1])
  }

  lemma WrittenAsAllAppend(fs1: seq<MseedFile>, ps1: seq<Planned>, fs2: seq<MseedFile>, ps2: seq<Planned>)
    requires WrittenAsAll(fs1, ps1) && WrittenAsAll(fs2, ps2)
    ensures WrittenAsAll(fs1 + fs2, ps1 + ps2)
  {
    forall k | 0 <= k < |fs1 + fs2| ensures WrittenAs((fs1 + fs2)[k], (ps1 + ps2)[k]) {
      if k < |fs1| {
        assert (fs1 + fs2)[k] == fs1[k] && (ps1 + ps2)[k] == ps1[k];
      } else {
        assert (fs1 + fs2)[k] == fs2[k - |fs1|] && (ps1 + ps2)[k] == ps2[k - |fs1|];
      }
    }
  }

  /** The file `create_mseed` writes from a successful filter is the one
      planned for its matches. */
  lemma WrittenFromFilter(prefix: string, outDir: string, template: string, ms: seq<Match>, r: Rate, delta: Interval)
    requires RateSet(ms) == {r} && delta in IntervalSet(ms)
    ensures Pairs(ms) != []
    ensures WrittenAsAll([MseedFile(Join(outDir, OutputName(prefix, template)), StreamOf(Pairs(ms), r, delta))],
                         PlanFor(prefix, outDir, template, ms))
  {
    SuccessShape(ms, r, delta);
    var f := MseedFile(Join(outDir, OutputName(prefix, template)), StreamOf(Pairs(ms), r, delta));
    var p := PlanFor(prefix, outDir, template, ms)[0];
    assert f.traces == StreamOf(p.pairs, p.rate, delta);
  }

  /** One iteration of the lateral loop: skip the extension when no file
      carries it or when either lateral filter fails; otherwise write X, then Y. */
  method LateralExt(input: InputDir, ext: string, prefix: string, out: OutputDir)
    modifies out
    ensures old(out.written) <= out.written
    ensures WrittenAsAll(out.written[|old(out.written)|..], LateralExtPlans(prefix, out.path, input, ext))
  {
    ghost var w0 := out.written;
    var lateralFiles := ReadFiles(input.path, input.listing, ext);
    if lateralFiles == [] {
      return;
    }
    var rx := FilterChannelData(lateralFiles, input.read, "2");
    if rx.Err? {
      return;
    }
    var ry := FilterChannelData(lateralFiles, input.read, "3");
    if ry.Err? {
      return;
    }
    ghost var x := Matched(lateralFiles, input.read, "2");
    ghost var y := Matched(lateralFiles, input.read, "3");
    WrittenFromFilter(prefix, out.path, XName(ext), x, rx.value.rate, rx.value.interval);
    WrittenFromFilter(prefix, out.path, YName(ext), y, ry.value.rate, ry.value.interval);
    CreateMseed(rx.value.data, XName(ext), rx.value.rate, rx.value.interval, prefix, out);
    ghost var w1 := out.written;
    CreateMseed(ry.value.data, YName(ext), ry.value.rate, ry.value.interval, prefix, out);
    ghost var fx := MseedFile(Join(out.path, OutputName(prefix, XName(ext))), StreamOf(Pairs(x), rx.value.rate, rx.value.interval));
    ghost var fy := MseedFile(Join(out.path, OutputName(prefix, YName(ext))), StreamOf(Pairs(y), ry.value.rate, ry.value.interval));
    TwoAppended(w0, w1, out.written, fx, fy);
    WrittenAsAllAppend([fx], PlanFor(prefix, out.path, XName(ext), x), [fy], PlanFor(prefix, out.path, YName(ext), y));
  }

  /** One iteration of the vertical loop: skip the extension when no file
      carries it or when the channel-1 filter fails; otherwise write V. */
  method VerticalExt(input: InputDir, ext: string, out: OutputDir)
    modifies out
    ensures old(out.written) <= out.written
    ensures WrittenAsAll(out.written[|old(out.written)|..], VerticalExtPlans(out.path, input, ext))
  {
    ghost var w0 := out.written;
    var verticalFiles := ReadFiles(input.path, input.listing, ext);
    if verticalFiles == [] {
      return;
    }
    var rv := FilterChannelData(verticalFiles, input.read, "1");
    if rv.Err? {
      return;
    }
    ghost var v := Matched(verticalFiles, input.read, "1");
    WrittenFromFilter("DH", out.path, VName(ext), v, rv.value.rate, rv.value.interval);
    CreateMseed(rv.value.data, VName(ext), rv.value.rate, rv.value.interval, "DH", out);
    OneAppended(w0, out.written, MseedFile(Join(out.path, OutputName("DH", VName(ext))),
                                           StreamOf(Pairs(v), rv.value.rate, rv.value.interval)));
  }

  /** The lateral loop over `exts` (shared by both processors, which differ
      only in the prefix). */
  method LateralPass(input: InputDir, exts: seq<string>, prefix: string, out: OutputDir)
    modifies out
    ensures old(out.written) <= out.written
    ensures WrittenAsAll(out.written[|old(out.written)|..], LateralPlans(prefix, out.path, input, exts))
  {
    ghost var w0 := out.written;
    for i := 0 to |exts|
      invariant w0 <= out.written
      invariant WrittenAsAll(out.written[|w0|..], LateralPlans(prefix, out.path, input, exts[..i]))
    {
      ghost var before := out.written;
      TakeSnoc(exts, i);
      LateralPlansSnoc(prefix, out.path, input, exts[..i], exts[i]);
      LateralExt(input, exts[i], prefix, out);
      SliceSplit(w0, before, out.written);
      WrittenAsAllAppend(before[|w0|..], LateralPlans(prefix, out.path, input, exts[..i]),
                         out.written[|before|..], LateralExtPlans(prefix, out.path, input, exts[i]));
    }
    assert exts[..|exts|] == exts;
  }

  /** The vertical loop over `exts`. */
  method VerticalPass(input: InputDir, exts: seq<string>, out: OutputDir)
    modifies out
    ensures old(out.written) <= out.written
    ensures WrittenAsAll(out.written[|old(out.written)|..], VerticalPlans(out.path, input, exts))
  {
    ghost var w0 := out.written;
    for i := 0 to |exts|
      invariant w0 <= out.written
      invariant WrittenAsAll(out.written[|w0|..], VerticalPlans(out.path, input, exts[..i]))
    {
      ghost var before := out.written;
      TakeSnoc(exts, i);
      VerticalPlansSnoc(out.path, input, exts[..i], exts[i]);
      VerticalExt(input, exts[i], out);
      SliceSplit(w0, before, out.written);
      WrittenAsAllAppend(before[|w0|..], VerticalPlans(out.path, input, exts[..i]),
                         out.written[|before|..], VerticalExtPlans(out.path, input, exts[i]));
    }
    assert exts[..|exts|] == exts;
  }

  /** `process_files_ch`: the lateral loop with prefix "CH". */
  method ProcessFilesCh(input: InputDir, exts: seq<string>, out: OutputDir)
    modifies out
    ensures old(out.written) <= out.written
    ensures WrittenAsAll(out.written[|old(out.written)|..], LateralPlans("CH", out.path, input, exts))
  {
    LateralPass(input, exts, "CH", out);
  }

  /** `process_files_dh`: the vertical loop, then the lateral loop with
      prefix "DH". The lateral files written do not depend on how the
      vertical loop fared. */
  method ProcessFilesDh(input: InputDir, verticalExts: seq<string>, exts: seq<string>, out: OutputDir)
    modifies out
    ensures old(out.written) <= out.written
    ensures WrittenAsAll(out.written[|old(out.written)|..],
                         VerticalPlans(out.path, input, verticalExts) + LateralPlans("DH", out.path, input, exts))
  {
    ghost var w0 := out.written;
    VerticalPass(input, verticalExts, out);
    ghost var w1 := out.written;
    LateralPass(input, exts, "DH", out);
    SliceSplit(w0, w1, out.written);
    WrittenAsAllAppend(w1[|w0|..], VerticalPlans(out.path, input, verticalExts),
                       out.written[|w1|..], LateralPlans("DH", out.path, input, exts));
  }

  /** Per lateral extension, either both lateral files are planned, X then Y,
      each non-empty and named `<prefix>_Channel_X_<ext>.mseed` and
      `<prefix>_Channel_Y_<ext>.mseed`, or neither
      is; both are exactly when the extension has files and each of channels
      2 and 3 shows exactly one sampling rate. */
  lemma LateralExtPlansShape(prefix: string, outDir: string, input: InputDir, ext: string)
    ensures var files := Files(input, ext);
            var x := Matched(files, input.read, "2");
            var y := Matched(files, input.read, "3");
            var ps := LateralExtPlans(prefix, outDir, input, ext);
            if files != [] && |RateSet(x)| == 1 && |RateSet(y)| == 1 then
              |ps| == 2 &&
              ps[0].path == Join(outDir, OutputName(prefix, XName(ext))) && ps[0].pairs == Pairs(x) && ps[0].pairs != [] &&
              ps[1].path == Join(outDir, OutputName(prefix, YName(ext))) && ps[1].pairs == Pairs(y) && ps[1].pairs != []
            else ps == []
  {
    var files := Files(input, ext);
    var x := Matched(files, input.read, "2");
    var y := Matched(files, input.read, "3");
    if files != [] && |RateSet(x)| == 1 && |RateSet(y)| == 1 {
      PlanForOne(prefix, outDir, XName(ext), x);
      PlanForOne(prefix, outDir, YName(ext), y);
    }
  }

  /** After a successful filter `create_mseed` always writes its file. */
  lemma PlanForOne(prefix: string, outDir: string, template: string, ms: seq<Match>)
    requires |RateSet(ms)| == 1
    ensures var ps := PlanFor(prefix, outDir, template, ms);
            |ps| == 1 && ps[0].path == Join(outDir, OutputName(prefix, template)) &&
            ps[0].pairs == Pairs(ms) && ps[0].pairs != []
  {
    NonEmptySets(ms);
    PairsAt(ms);
  }

  /** Per vertical extension, at most the one file `DH_Channel_V_<ext>.mseed`
      is planned, exactly when the extension has files and channel 1 shows
      exactly one sampling rate. */
  lemma VerticalExtPlansShape(outDir: string, input: InputDir, ext: string)
    ensures var files := Files(input, ext);
            var v := Matched(files, input.read, "1");
            var ps := VerticalExtPlans(outDir, input, ext);
            if files != [] && |RateSet(v)| == 1 then
              |ps| == 1 && ps[0].path == Join(outDir, OutputName("DH", VName(ext))) &&
              ps[0].pairs == Pairs(v) && ps[0].pairs != []
            else ps == []
  {
    var files := Files(input, ext);
    var v := Matched(files, input.read, "1");
    if files != [] && |RateSet(v)| == 1 {
      PlanForOne("DH", outDir, VName(ext), v);
    }
  }

  /** Extensions are processed independently and in order: the plan for two
      runs of extensions is the plan of each, one after the other. */
  lemma {:induction false} LateralPlansAppend(prefix: string, outDir: string, input: InputDir, a: seq<string>, b: seq<string>)
    ensures LateralPlans(prefix, outDir, input, a + b) == LateralPlans(prefix, outDir, input, a) + LateralPlans(prefix, outDir, input, b)
    decreases |b|
  {
    if b == [] {
      assert a + b == a;
    } else {
      var b', last := b[..|b| - 1], b[|b| - 1];
      SplitLast(a, b);
      LateralPlansAppend(prefix, outDir, input, a, b');
      LateralPlansSnoc(prefix, outDir, input, a + b', last);
      LateralPlansSnoc(prefix, outDir, input, b', last);
      AppendAssoc(LateralPlans(prefix, outDir, input, a), LateralPlans(prefix, outDir, input, b'),
                  LateralExtPlans(prefix, outDir, input, last));
    }
  }

  lemma LateralPlansSnoc(prefix: string, outDir: string, input: InputDir, exts: seq<string>, ext: string)
    ensures LateralPlans(prefix, outDir, input, exts + [ext]) == LateralPlans(prefix, outDir, input, exts) + LateralExtPlans(prefix, outDir, input, ext)
  {
    assert (exts + [ext])[..|exts|] == exts;
  }

  /** The same for the vertical loop. */
  lemma {:induction false} VerticalPlansAppend(outDir: string, input: InputDir, a: seq<string>, b: seq<string>)
    ensures VerticalPlans(outDir, input, a + b) == VerticalPlans(outDir, input, a) + VerticalPlans(outDir, input, b)
    decreases |b|
  {
    if b == [] {
      assert a + b == a;
    } else {
      var b', last := b[..|b| - 1], b[|b| - 1];
      SplitLast(a, b);
      VerticalPlansAppend(outDir, input, a, b');
      VerticalPlansSnoc(outDir, input, a + b', last);
      VerticalPlansSnoc(outDir, input, b', last);
      AppendAssoc(VerticalPlans(outDir, input, a), VerticalPlans(outDir, input, b'), VerticalExtPlans(outDir, input, last));
    }
  }

  lemma VerticalPlansSnoc(outDir: string, input: InputDir, exts: seq<string>, ext: string)
    ensures VerticalPlans(outDir, input, exts + [ext]) == VerticalPlans(outDir, input, exts) + VerticalExtPlans(outDir, input, ext)
  {
    assert (exts + [ext])[..|exts|] == exts;
  }

  /** The vertical loop writes at most one file per vertical extension, and
      each file it writes is the V file of one of them. */
  lemma {:induction false} VerticalPlansNames(outDir: string, input: InputDir, exts: seq<string>)
    ensures |VerticalPlans(outDir, input, exts)| <= |exts|
    ensures forall k :: 0 <= k < |VerticalPlans(outDir, input, exts)| ==>
              exists e :: e in exts && VerticalPlans(outDir, input, exts)[k].path == Join(outDir, OutputName("DH", VName(e)))
    decreases |exts|
  {
    if exts != [] {
      var init, last := exts[..|exts| - 1], exts[|exts| - 1];
      VerticalPlansNames(outDir, input, init);
      VerticalExtPlansShape(outDir, input, last);
      var ps := VerticalPlans(outDir, input, exts);
      var pi := VerticalPlans(outDir, input, init);
      forall k | 0 <= k < |ps|
        ensures exists e :: e in exts && ps[k].path == Join(outDir, OutputName("DH", VName(e)))
      {
        if k < |pi| {
          assert pi[k] == VerticalPlans(outDir, input, init)[k];
          var e :| e in init && pi[k].path == Join(outDir, OutputName("DH", VName(e)));
          assert ps[k] == pi[k];
          assert e in exts;
        } else {
          assert ps == pi + VerticalExtPlans(outDir, input, last);
          assert ps[k] == VerticalExtPlans(outDir, input, last)[0];
          assert last in exts;
        }
      }
    }
  }

  /** The lateral loop writes at most two files per extension. */
  lemma {:induction false} LateralPlansBound(prefix: string, outDir: string, input: InputDir, exts: seq<string>)
    ensures |LateralPlans(prefix, outDir, input, exts)| <= 2 * |exts|
    decreases |exts|
  {
    if exts != [] {
      LateralPlansBound(prefix, outDir, input, exts[..|exts| - 1]);
      LateralExtPlansShape(prefix, outDir, input, exts[|exts| - 1]);
    }
  }

  /** Output files are found under their own name in the output directory:
      `<prefix>_<template>` when both are slash-free. */
  lemma OutputFileName(outDir: string, prefix: string, template: string)
    requires '/' !in prefix && '/' !in template
    ensures Basename(Join(outDir, OutputName(prefix, template))) == prefix + "_" + template
  {
    BasenameOfJoin(outDir, OutputName(prefix, template));
  }

  /** An extension none of whose files holds a trace of lateral channel `ch`
      writes neither lateral file, whatever the other channel holds. */
  lemma MissingLateralChannel(prefix: string, outDir: string, input: InputDir, ext: string, ch: string)
    requires ch == "2" || ch == "3"
    requires forall i :: 0 <= i < |Files(input, ext)| ==> Lacks(input.read(Files(input, ext)[i]), ch)
    ensures LateralExtPlans(prefix, outDir, input, ext) == []
  {
    NoSuchChannelAnywhere(Files(input, ext), input.read, ch);
  }
}
