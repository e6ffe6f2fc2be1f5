/** The stream assembler and writer: `create_mseed(channel_data,
    output_filename, sampling_rate, sample_interval, prefix, output_dir)`.
    MiniSEED serialisation is abstracted: a written file is its path and the
    ordered traces of the stream handed to the writer. */
module MseedWriter {
  import opened Paths
  import opened ChannelFilter

  /** One trace of an output stream: samples, station, rate and delta. */
  datatype OutTrace = OutTrace(data: Samples, station: string, rate: Rate, delta: Interval)

  datatype MseedFile = MseedFile(path: string, traces: seq<OutTrace>)

  /** The stream for `pairs`: one trace per pair, in order, its station the
      pair's file name, all with the same rate and delta. */
  function StreamOf(pairs: seq<(Samples, string)>, rate: Rate, delta: Interval): (s: seq<OutTrace>)
    ensures |s| == |pairs|
    ensures forall k :: 0 <= k < |s| ==> s[k].data == pairs[k].0 && s[k].station == pairs[k].1
    ensures forall k :: 0 <= k < |s| ==> s[k].rate == rate && s[k].delta == delta
  {
    seq(|pairs|, k requires 0 <= k < |pairs| => OutTrace(pairs[k].0, pairs[k].1, rate, delta))
  }

  /** The output file name: the prefix, an underscore, then the template. */
  function OutputName(prefix: string, template: string): string {
    prefix + "_" + template
  }

  /** The output directory: its path and the files written into it so far,
      oldest first (a later write to the same path replaces the earlier file). */
  class OutputDir {
    const path: string
    var written: seq<MseedFile>

    constructor (path: string)
      ensures this.path == path && written == []
    {
      this.path := path;
      written := [];
    }

    /** `stream.write(join(output_dir, name), format='MSEED')`. */
    method Write(name: string, stream: seq<OutTrace>)
      modifies this
      ensures written == old(written) + [MseedFile(Join(path, name), stream)]
    {
      written := written + [MseedFile(Join(path, name), stream)];
    }
  }

  /** The loop that appends one trace per pair to a fresh stream. */
  method BuildStream(channelData: seq<(Samples, string)>, rate: Rate, delta: Interval)
    returns (stream: seq<OutTrace>)
    ensures stream == StreamOf(channelData, rate, delta)
  {
    stream := [];
    var i := 0;
    while i < |channelData|
      invariant 0 <= i <= |channelData|
      invariant stream == StreamOf(channelData[..i], rate, delta)
    {
      var (data, filename) := channelData[i];
      stream := stream + [OutTrace(data, filename, rate, delta)];
      i := i + 1;
    }
    assert channelData[..i] == channelData;
  }

  /** Nothing is written for empty data; otherwise exactly one file,
      `<prefix>_<template>` in the output directory, holding the stream. */
  method CreateMseed(channelData: seq<(Samples, string)>, template: string, rate: Rate, delta: Interval,
                     prefix: string, out: OutputDir)
    modifies out
    ensures channelData == [] ==> out.written == old(out.written)
    ensures channelData != [] ==>
              out.written == old(out.written) + [MseedFile(Join(out.path, OutputName(prefix, template)),
                                                           StreamOf(channelData, rate, delta))]
  {
    if channelData == [] {
      return;
    }
    var stream := BuildStream(channelData, rate, delta);
    if stream != [] {
      out.Write(OutputName(prefix, template), stream);
    }
  }
}
