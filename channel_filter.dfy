/** The channel filter: `filter_channel_data(files, channel_number)`.

    The seismic reader is abstracted as a total function from a path to what
    reading it yields: either the read raises, or the file's traces in order.
    A trace carries its channel-number header (which may be missing, so that
    looking at it raises), its sampling rate, its declared sample interval
    (which may fail to parse as a float) and its samples. Rates and intervals
    are only ever compared for equality. */
module ChannelFilter {
  import opened Results
  import opened Paths
  import opened Seqs

  type Rate = real
  type Interval = real
  type Samples = seq<int>

  datatype TraceRec = TraceRec(channel: Option<string>, rate: Rate, interval: Option<Interval>, data: Samples)

  datatype FileRead = Unreadable | Traces(traces: seq<TraceRec>)

  type Reader = string -> FileRead

  /** One kept trace: its samples, the base name of its file (later the
      station), its rate and its parsed interval. */
  datatype Match = Match(data: Samples, station: string, rate: Rate, interval: Interval)

  /** What a successful filter returns: the (samples, file name) pairs, the one
      sampling rate, and one of the sample intervals seen. */
  datatype Filtered = Filtered(data: seq<(Samples, string)>, rate: Rate, interval: Interval)

  /** Visiting this trace raises: its channel header cannot be read, or it
      belongs to the channel and its interval does not parse. */
  predicate Raises(t: TraceRec, ch: string) {
    t.channel.None? || (t.channel.value == ch && t.interval.None?)
  }

  /** This trace is kept for channel `ch`. */
  predicate Keeps(t: TraceRec, ch: string) {
    t.channel == Some(ch) && t.interval.Some?
  }

  /** The index of the first trace whose visit raises, or |ts| if none does. */
  function FirstRaise(ts: seq<TraceRec>, ch: string): (k: nat)
    ensures k <= |ts|
    ensures forall i :: 0 <= i < k ==> !Raises(ts[i], ch)
    ensures k < |ts| ==> Raises(ts[k], ch)
    decreases |ts|
  {
    if ts == [] || Raises(ts[0], ch) then 0 else 1 + FirstRaise(ts[1..], ch)
  }

  function ToMatch(t: TraceRec, station: string): Match
    requires t.interval.Some?
  {
    Match(t.data, station, t.rate, t.interval.value)
  }

  /** The kept traces of `ts`, in order, tagged with `station`. */
  function KeptMatches(ts: seq<TraceRec>, ch: string, station: string): seq<Match>
    decreases |ts|
  {
    if ts == [] then []
    else
      var last := ts[|ts| - 1];
      KeptMatches(ts[..|ts| - 1], ch, station) + (if Keeps(last, ch) then [ToMatch(last, station)] else [])
  }

  /** What one file contributes: nothing if reading it raises; otherwise the
      kept traces that precede the first trace whose visit raises. */
  function FileMatches(read: Reader, path: string, ch: string): seq<Match> {
    match read(path)
    case Unreadable => []
    case Traces(ts) => KeptMatches(ts[..FirstRaise(ts, ch)], ch, Basename(path))
  }

  /** Everything the filter collects from `files`, file by file. */
  function Matched(files: seq<string>, read: Reader, ch: string): seq<Match>
    decreases |files|
  {
    if files == [] then []
    else Matched(files[..|files| - 1], read, ch) + FileMatches(read, files[|files| - 1], ch)
  }

  function Pairs(ms: seq<Match>): seq<(Samples, string)>
    decreases |ms|
  {
    if ms == [] then [] else Pairs(ms[..|ms| - 1]) + [(ms[|ms| - 1].data, ms[|ms| - 1].station)]
  }

  function RateSet(ms: seq<Match>): set<Rate>
    decreases |ms|
  {
    if ms == [] then {} else RateSet(ms[..|ms| - 1]) + {ms[|ms| - 1].rate}
  }

  function IntervalSet(ms: seq<Match>): set<Interval>
    decreases |ms|
  {
    if ms == [] then {} else IntervalSet(ms[..|ms| - 1]) + {ms[|ms| - 1].interval}
  }

  /** Appending one match extends the pairs and the two sets by that match. */
  lemma Snoc(ms: seq<Match>, m: Match)
    ensures Pairs(ms + [m]) == Pairs(ms) + [(m.data, m.station)]
    ensures RateSet(ms + [m]) == RateSet(ms) + {m.rate}
    ensures IntervalSet(ms + [m]) == IntervalSet(ms) + {m.interval}
  {
    assert (ms + [m])[..|ms|] == ms;
  }

  /** The traces of one file that was read: visit them in order, keep those of
      channel `ch` tagged with `station`, and stop at the first trace whose
      visit raises, keeping what was already collected from this file. */
  method ScanTraces(ts: seq<TraceRec>, ch: string, station: string)
    returns (data: seq<(Samples, string)>, rates: set<Rate>, intervals: set<Interval>)
    ensures data == Pairs(KeptMatches(ts[..FirstRaise(ts, ch)], ch, station))
    ensures rates == RateSet(KeptMatches(ts[..FirstRaise(ts, ch)], ch, station))
    ensures intervals == IntervalSet(KeptMatches(ts[..FirstRaise(ts, ch)], ch, station))
  {
    data, rates, intervals := [], {}, {};
    ghost var ms: seq<Match> := [];
    var j := 0;
    while j < |ts|
      invariant 0 <= j <= |ts|
      invariant j <= FirstRaise(ts, ch)
      invariant ms == KeptMatches(ts[..j], ch, station)
      invariant data == Pairs(ms)
      invariant rates == RateSet(ms)
      invariant intervals == IntervalSet(ms)
    {
      var tr := ts[j];
      if tr.channel.None? {
        FirstRaiseAt(ts, j, ch);
        break;
      }
      if tr.channel.value == ch {
        if tr.interval.None? {
          FirstRaiseAt(ts, j, ch);
          break;
        }
        var m := ToMatch(tr, station);
        KeptStep(ts, j, ch, station);
        Snoc(ms, m);
        data := data + [(tr.data, station)];
        rates := rates + {tr.rate};
        intervals := intervals + {tr.interval.value};
        ms := ms + [m];
      } else {
        KeptSkip(ts, j, ch, station);
      }
      FirstRaisePast(ts, j, ch);
      j := j + 1;
    }
    assert j == FirstRaise(ts, ch);
  }

  /** The filter, as the source runs it: loop over the files, read each one,
      scan its traces, and fail unless exactly one sampling rate was seen. A
      file whose read raises is skipped. The error carries the set of rates
      seen. */
  method FilterChannelData(files: seq<string>, read: Reader, ch: string)
    returns (res: Result<Filtered, set<Rate>>)
    ensures res.Err? <==> |RateSet(Matched(files, read, ch))| != 1
    ensures res.Err? ==> res.error == RateSet(Matched(files, read, ch))
    ensures res.Ok? ==> res.value.data == Pairs(Matched(files, read, ch))
    ensures res.Ok? ==> RateSet(Matched(files, read, ch)) == {res.value.rate}
    ensures res.Ok? ==> res.value.interval in IntervalSet(Matched(files, read, ch))
  {
    var channelData: seq<(Samples, string)> := [];
    var samplingRates: set<Rate> := {};
    var sampleIntervals: set<Interval> := {};
    var i := 0;
    while i < |files|
      invariant 0 <= i <= |files|
      invariant channelData == Pairs(Matched(files[..i], read, ch))
      invariant samplingRates == RateSet(Matched(files[..i], read, ch))
      invariant sampleIntervals == IntervalSet(Matched(files[..i], read, ch))
    {
      var filename := files[i];
      var st := read(filename);
      if st.Traces? {
        var data, rates, intervals := ScanTraces(st.traces, ch, Basename(filename));
        ReadableStep(files, i, read, ch);
        channelData := channelData + data;
        samplingRates := samplingRates + rates;
        sampleIntervals := sampleIntervals + intervals;
      } else {
        UnreadableStep(files, i, read, ch);
      }
      i := i + 1;
    }
    TakeAll(files);
    if |samplingRates| != 1 {
      res := Err(samplingRates);
      return;
    }
    var rate :| rate in samplingRates;
    SingletonSet(samplingRates, rate);
    NonEmptySets(Matched(files, read, ch));
    var interval :| interval in sampleIntervals;
    res := Ok(Filtered(channelData, rate, interval));
  }

  /** Pairs and the two sets of a concatenation are those of the parts. */
  lemma {:induction false} AppendMatches(a: seq<Match>, b: seq<Match>)
    ensures Pairs(a + b) == Pairs(a) + Pairs(b)
    ensures RateSet(a + b) == RateSet(a) + RateSet(b)
    ensures IntervalSet(a + b) == IntervalSet(a) + IntervalSet(b)
    decreases |b|
  {
    if b == [] {
      assert a + b == a;
    } else {
      var b' := b[..|b| - 1];
      var m := b[|b| - 1];
      SplitLast(a, b);
      AppendMatches(a, b');
      Snoc(a + b', m);
      Snoc(b', m);
      AppendAssoc(Pairs(a), Pairs(b'), [(m.data, m.station)]);
    }
  }

  /** A trace that is not kept leaves the kept matches as they were. */
  lemma KeptSkip(ts: seq<TraceRec>, j: nat, ch: string, station: string)
    requires j < |ts| && !Keeps(ts[j], ch)
    ensures KeptMatches(ts[..j + 1], ch, station) == KeptMatches(ts[..j], ch, station)
  {
    KeptStep(ts, j, ch, station);
    assert KeptMatches(ts[..j], ch, station) + [] == KeptMatches(ts[..j], ch, station);
  }

  /** A raising trace reached without passing the first raise is the first raise. */
  lemma FirstRaiseAt(ts: seq<TraceRec>, j: nat, ch: string)
    requires j < |ts| && j <= FirstRaise(ts, ch) && Raises(ts[j], ch)
    ensures j == FirstRaise(ts, ch)
  {
  }

  lemma KeptStep(ts: seq<TraceRec>, j: nat, ch: string, station: string)
    requires j < |ts|
    ensures KeptMatches(ts[..j + 1], ch, station) ==
            KeptMatches(ts[..j], ch, station) + (if Keeps(ts[j], ch) then [ToMatch(ts[j], station)] else [])
  {
    assert ts[..j + 1][..j] == ts[..j];
  }

  /** One readable file of the filter loop adds what scanning its traces
      collects. */
  lemma ReadableStep(files: seq<string>, i: nat, read: Reader, ch: string)
    requires i < |files| && read(files[i]).Traces?
    ensures var ts := read(files[i]).traces;
            var kept := KeptMatches(ts[..FirstRaise(ts, ch)], ch, Basename(files[i]));
            Pairs(Matched(files[..i + 1], read, ch)) == Pairs(Matched(files[..i], read, ch)) + Pairs(kept) &&
            RateSet(Matched(files[..i + 1], read, ch)) == RateSet(Matched(files[..i], read, ch)) + RateSet(kept) &&
            IntervalSet(Matched(files[..i + 1], read, ch)) == IntervalSet(Matched(files[..i], read, ch)) + IntervalSet(kept)
  {
    MatchedStep(files, i, read, ch);
    AppendMatches(Matched(files[..i], read, ch), FileMatches(read, files[i], ch));
  }

  /** One unreadable file of the filter loop adds nothing. */
  lemma UnreadableStep(files: seq<string>, i: nat, read: Reader, ch: string)
    requires i < |files| && read(files[i]).Unreadable?
    ensures Matched(files[..i + 1], read, ch) == Matched(files[..i], read, ch)
  {
    MatchedStep(files, i, read, ch);
    assert Matched(files[..i], read, ch) + [] == Matched(files[..i], read, ch);
  }

  lemma MatchedStep(files: seq<string>, i: nat, read: Reader, ch: string)
    requires i < |files|
    ensures Matched(files[..i + 1], read, ch) == Matched(files[..i], read, ch) + FileMatches(read, files[i], ch)
  {
    assert files[..i + 1][..i] == files[..i];
  }

  /** A trace that does not raise, at or before the first one that does, is
      strictly before it. */
  lemma FirstRaisePast(ts: seq<TraceRec>, j: nat, ch: string)
    requires j < |ts| && j <= FirstRaise(ts, ch) && !Raises(ts[j], ch)
    ensures j + 1 <= FirstRaise(ts, ch)
  {
  }

  lemma SingletonSet(s: set<Rate>, x: Rate)
    requires |s| == 1 && x in s
    ensures s == {x}
  {
    var rest := s - {x};
    assert |rest| == 0;
  }

  /** Some rate was seen exactly when something was kept, and then some
      interval was seen too. */
  lemma {:induction false} NonEmptySets(ms: seq<Match>)
    ensures RateSet(ms) == {} <==> ms == []
    ensures IntervalSet(ms) == {} <==> ms == []
  {
  }

  /** Pairs keep one entry per match, in order. */
  lemma {:induction false} PairsAt(ms: seq<Match>)
    ensures |Pairs(ms)| == |ms|
    ensures forall k :: 0 <= k < |ms| ==> Pairs(ms)[k] == (ms[k].data, ms[k].station)
    decreases |ms|
  {
    if ms != [] {
      PairsAt(ms[..|ms| - 1]);
    }
  }

  /** A rate is in the set exactly when some match has it. */
  lemma {:induction false} RateSetMembers(ms: seq<Match>, r: Rate)
    ensures r in RateSet(ms) <==> exists k :: 0 <= k < |ms| && ms[k].rate == r
    decreases |ms|
  {
    if ms != [] {
      var init := ms[..|ms| - 1];
      RateSetMembers(init, r);
      if exists k :: 0 <= k < |init| && init[k].rate == r {
        var k :| 0 <= k < |init| && init[k].rate == r;
        assert ms[k] == init[k];
      }
      if exists k :: 0 <= k < |ms| && ms[k].rate == r {
        var k :| 0 <= k < |ms| && ms[k].rate == r;
        if k < |init| {
          assert init[k] == ms[k];
        }
      }
    }
  }

  /** An interval is in the set exactly when some match has it. */
  lemma {:induction false} IntervalSetMembers(ms: seq<Match>, v: Interval)
    ensures v in IntervalSet(ms) <==> exists k :: 0 <= k < |ms| && ms[k].interval == v
    decreases |ms|
  {
    if ms != [] {
      var init := ms[..|ms| - 1];
      IntervalSetMembers(init, v);
      if exists k :: 0 <= k < |init| && init[k].interval == v {
        var k :| 0 <= k < |init| && init[k].interval == v;
        assert ms[k] == init[k];
      }
      if exists k :: 0 <= k < |ms| && ms[k].interval == v {
        var k :| 0 <= k < |ms| && ms[k].interval == v;
        if k < |init| {
          assert init[k] == ms[k];
        }
      }
    }
  }

  /** When the filter succeeds with rate `r`, every returned trace has rate
      `r`, at least one trace is returned, and the returned interval is the
      interval of one of them (not necessarily the only one seen). */
  lemma SuccessShape(ms: seq<Match>, r: Rate, v: Interval)
    requires RateSet(ms) == {r} && v in IntervalSet(ms)
    ensures |Pairs(ms)| == |ms| > 0
    ensures forall k :: 0 <= k < |ms| ==> ms[k].rate == r
    ensures exists k :: 0 <= k < |ms| && ms[k].interval == v
  {
    PairsAt(ms);
    NonEmptySets(ms);
    forall k | 0 <= k < |ms| ensures ms[k].rate == r {
      RateSetMembers(ms, ms[k].rate);
    }
    IntervalSetMembers(ms, v);
  }

  /** Kept traces of two runs of traces are those of each, one after the other. */
  lemma {:induction false} KeptMatchesAppend(a: seq<TraceRec>, b: seq<TraceRec>, ch: string, station: string)
    ensures KeptMatches(a + b, ch, station) == KeptMatches(a, ch, station) + KeptMatches(b, ch, station)
    decreases |b|
  {
    if b == [] {
      assert a + b == a;
    } else {
      var b' := b[..|b| - 1];
      assert (a + b)[..|a + b| - 1] == a + b';
      KeptMatchesAppend(a, b', ch, station);
    }
  }

  /** A match is kept from `ts` exactly when it is made from a trace of
      channel `ch` whose interval parsed. */
  lemma {:induction false} KeptMatchesMembers(ts: seq<TraceRec>, ch: string, station: string, m: Match)
    ensures m in KeptMatches(ts, ch, station) <==>
            exists i :: 0 <= i < |ts| && Keeps(ts[i], ch) && m == ToMatch(ts[i], station)
    decreases |ts|
  {
    if ts != [] {
      var init := ts[..|ts| - 1];
      KeptMatchesMembers(init, ch, station, m);
      if exists i :: 0 <= i < |init| && Keeps(init[i], ch) && m == ToMatch(init[i], station) {
        var i :| 0 <= i < |init| && Keeps(init[i], ch) && m == ToMatch(init[i], station);
        assert ts[i] == init[i];
      }
      if exists i :: 0 <= i < |ts| && Keeps(ts[i], ch) && m == ToMatch(ts[i], station) {
        var i :| 0 <= i < |ts| && Keeps(ts[i], ch) && m == ToMatch(ts[i], station);
        if i < |init| {
          assert init[i] == ts[i];
        }
      }
    }
  }

  /** A file that is read contributes a prefix of its kept traces, and all
      of them when no trace raises. (`MatchedSound` and `MatchedComplete`
      pin the prefix down to the kept traces before the first raise.) */
  lemma FileMatchesPrefix(read: Reader, path: string, ch: string)
    requires read(path).Traces?
    ensures var ts := read(path).traces;
            FileMatches(read, path, ch) <= KeptMatches(ts, ch, Basename(path))
    ensures var ts := read(path).traces;
            (forall i :: 0 <= i < |ts| ==> !Raises(ts[i], ch)) ==>
              FileMatches(read, path, ch) == KeptMatches(ts, ch, Basename(path))
  {
    var ts := read(path).traces;
    var k := FirstRaise(ts, ch);
    assert ts == ts[..k] + ts[k..];
    KeptMatchesAppend(ts[..k], ts[k..], ch, Basename(path));
  }

  /** The files are processed in order: the matches of two runs of files are
      those of each, one after the other. */
  lemma {:induction false} MatchedAppend(a: seq<string>, b: seq<string>, read: Reader, ch: string)
    ensures Matched(a + b, read, ch) == Matched(a, read, ch) + Matched(b, read, ch)
    decreases |b|
  {
    if b == [] {
      assert a + b == a;
    } else {
      var b', last := b[..|b| - 1], b[|b| - 1];
      SplitLast(a, b);
      MatchedAppend(a, b', read, ch);
      MatchedAppendStep(a, b', last, read, ch);
    }
  }

  lemma MatchedAppendStep(a: seq<string>, b: seq<string>, last: string, read: Reader, ch: string)
    requires Matched(a + b, read, ch) == Matched(a, read, ch) + Matched(b, read, ch)
    ensures Matched((a + b) + [last], read, ch) == Matched(a, read, ch) + Matched(b + [last], read, ch)
  {
    MatchedSnoc(a + b, last, read, ch);
    MatchedSnoc(b, last, read, ch);
    AppendAssoc(Matched(a, read, ch), Matched(b, read, ch), FileMatches(read, last, ch));
  }

  lemma MatchedSnoc(files: seq<string>, f: string, read: Reader, ch: string)
    ensures Matched(files + [f], read, ch) == Matched(files, read, ch) + FileMatches(read, f, ch)
  {
    assert (files + [f])[..|files|] == files;
  }

  /** A file whose read raises contributes nothing and the files after it
      are still processed. */
  lemma UnreadableSkipped(a: seq<string>, f: string, b: seq<string>, read: Reader, ch: string)
    requires read(f).Unreadable?
    ensures Matched(a + [f] + b, read, ch) == Matched(a, read, ch) + Matched(b, read, ch)
  {
    MatchedAppend(a + [f], b, read, ch);
    MatchedAppend(a, [f], read, ch);
    assert [f][..0] == [];
    assert Matched([f], read, ch) == [];
    assert Matched(a, read, ch) + [] == Matched(a, read, ch);
  }

  /** Every collected match is made from a trace of channel `ch` with a
      parsed interval that precedes the first trace of its file whose visit
      raises, and carries that file's base name. */
  lemma {:induction false} MatchedSound(files: seq<string>, read: Reader, ch: string, m: Match)
    requires m in Matched(files, read, ch)
    ensures exists i :: 0 <= i < |files| && read(files[i]).Traces? &&
              exists j :: 0 <= j < FirstRaise(read(files[i]).traces, ch) && Keeps(read(files[i]).traces[j], ch) &&
                m == ToMatch(read(files[i]).traces[j], Basename(files[i]))
    decreases |files|
  {
    var init := files[..|files| - 1];
    var last := files[|files| - 1];
    if m in Matched(init, read, ch) {
      MatchedSound(init, read, ch, m);
      var i :| 0 <= i < |init| && read(init[i]).Traces? &&
        exists j :: 0 <= j < FirstRaise(read(init[i]).traces, ch) && Keeps(read(init[i]).traces[j], ch) &&
          m == ToMatch(read(init[i]).traces[j], Basename(init[i]));
      assert files[i] == init[i];
    } else {
      var ts := read(last).traces;
      var k := FirstRaise(ts, ch);
      KeptMatchesMembers(ts[..k], ch, Basename(last), m);
      var j :| 0 <= j < |ts[..k]| && Keeps(ts[..k][j], ch) && m == ToMatch(ts[..k][j], Basename(last));
      assert ts[..k][j] == ts[j];
      assert files[|files| - 1] == last;
    }
  }

  /** Conversely, every trace kept from a readable file before the first
      trace whose visit raises is collected, with that file's base name. */
  lemma MatchedComplete(files: seq<string>, read: Reader, ch: string, i: nat, j: nat)
    requires i < |files| && read(files[i]).Traces?
    requires j < FirstRaise(read(files[i]).traces, ch)
    requires Keeps(read(files[i]).traces[j], ch)
    ensures ToMatch(read(files[i]).traces[j], Basename(files[i])) in Matched(files, read, ch)
  {
    var f := files[i];
    var ts := read(f).traces;
    var k := FirstRaise(ts, ch);
    assert files == files[..i] + [f] + files[i + 1..];
    MatchedAppend(files[..i] + [f], files[i + 1..], read, ch);
    MatchedAppend(files[..i], [f], read, ch);
    MatchedSnoc([], f, read, ch);
    assert [] + [f] == [f];
    assert ts[..k][j] == ts[j];
    KeptMatchesMembers(ts[..k], ch, Basename(f), ToMatch(ts[j], Basename(f)));
  }

  /** A file none of whose traces is labelled `ch` contributes nothing. */
  lemma NoSuchChannel(read: Reader, path: string, ch: string)
    requires read(path).Traces?
    requires forall i :: 0 <= i < |read(path).traces| ==> read(path).traces[i].channel != Some(ch)
    ensures FileMatches(read, path, ch) == []
  {
    var ts := read(path).traces;
    FileMatchesPrefix(read, path, ch);
    var kept := KeptMatches(ts, ch, Basename(path));
    if kept != [] {
      KeptMatchesMembers(ts, ch, Basename(path), kept[0]);
    }
  }

  /** The file is unreadable or none of its traces is labelled `ch`. */
  predicate Lacks(r: FileRead, ch: string) {
    r.Unreadable? || forall j :: 0 <= j < |r.traces| ==> r.traces[j].channel != Some(ch)
  }

  /** When no file holds a readable trace labelled `ch`, nothing is collected,
      no rate is seen, and the filter fails (zero matches is an error). */
  lemma {:induction false} NoSuchChannelAnywhere(files: seq<string>, read: Reader, ch: string)
    requires forall i :: 0 <= i < |files| ==> Lacks(read(files[i]), ch)
    ensures Matched(files, read, ch) == [] && |RateSet(Matched(files, read, ch))| != 1
    decreases |files|
  {
    if files != [] {
      var init, last := files[..|files| - 1], files[|files| - 1];
      assert forall i :: 0 <= i < |init| ==> init[i] == files[i];
      NoSuchChannelAnywhere(init, read, ch);
      if read(last).Traces? {
        NoSuchChannel(read, last, ch);
      }
    }
  }
}
