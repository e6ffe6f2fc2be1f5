# MiniSEED generator of the CH/DH survey tool, modelled in Dafny

The modelled component turns SEG2 recordings of a crosshole (CH) or downhole
(DH) seismic survey into MiniSEED files, one per channel and per file
extension. For each extension it lists the input directory, keeps the names
ending with the extension, reads every file, collects the traces of one
channel together with the file's base name (used as the station), checks that
exactly one sampling rate was seen, and writes one MiniSEED stream holding
those traces to `<prefix>_Channel_<X|Y|V>_<ext>.mseed` in the output
directory.

The model is split along the generator's functions:

- `paths.dfy` (`Paths`): `str.endswith` (`EndsWith`), a two-argument
  `os.path.join` (`Join`) and `os.path.basename` (`Basename`).
- `read_files.dfy` (`Listing`): `read_files` (`ReadFiles`, the comprehension
  of controllers/mseed_generator.py:8). The directory listing is a
  parameter, in whatever order `os.listdir` returns it.
- `channel_filter.dfy` (`ChannelFilter`): `filter_channel_data`. It is an
  imperative loop (`FilterChannelData`, with the per-file trace loop
  `ScanTraces`) proved against the specification function `Matched`. In
  controllers/mseed_generator.py, `Raises` says when visiting a trace raises
  (lines 20-21), `Keeps` when a trace is collected (lines 22-24),
  `FileMatches` what the `try` of lines 17-26 contributes for one file, and
  `Matched` what the file loop of line 16 collects. The SEG2 reader is a total function `Reader` from a path to `Unreadable` or the
  file's traces. A trace carries its channel-number header, which may be
  missing, and its interval header, which may or may not parse as a float.
  Reading the header of a trace without a channel number raises. Converting
  the interval of a trace of the requested channel that does not parse also
  raises. Either way the rest of that file is abandoned, and the traces
  already collected from it stay collected. The error of the single-rate
  check carries the set of rates seen.
- `mseed_writer.dfy` (`MseedWriter`): `create_mseed`. The output directory is
  a class `OutputDir` whose `written` field logs the files written, oldest
  first. A file is its path and the traces of its stream.
- `surveys.dfy` (`Surveys`): `process_files_ch` and `process_files_dh`. Their
  loops are imperative methods proved against plan functions
  (`LateralPlans`, `VerticalPlans`), built from one plan per extension:
  `LateralExtPlans` (controllers/mseed_generator.py:62-78) and
  `VerticalExtPlans` (controllers/mseed_generator.py:85-97). Python's
  `set.pop()` returns an arbitrary member, so the interval used as delta is chosen with `:|`. A
  written file is therefore specified as matching its plan for *some*
  interval that was seen (`WrittenAs`).
- `scenarios.dfy` (`Scenarios`): whole runs over small directories. Each
  lemma holds for any file names with the stated suffixes and any reader
  returning the stated traces.
- `seqs.dfy` (`Seqs`) and `results.dfy` (`Results`): sequence bookkeeping and
  the `Option`/`Result` types.

The extension lists come from the controllers. `LateralExtensions` is
`["2.seg2", "3.seg2"]` (controllers/ch_controller.py:25,
controllers/dh_controller.py:26). `VerticalExtensions` is `["1.seg2"]`
(controllers/dh_controller.py:25).

`create_mseed`'s warning on empty data (controllers/mseed_generator.py:38-40)
suggests that a missing channel only costs a warning. The code does more than
that, and the model follows the code:

- A channel with no matching trace at all yields an empty rate set. The
  single-rate check then raises `ValueError`, and the extension is skipped
  (`NoSuchChannelAnywhere`). It does not just log a warning and go on.
- Channel 2 and channel 3 are filtered over the *same* files of one
  extension, and both must succeed. Consider a CH directory where channel 2
  is only in the `2.seg2` files and channel 3 is only in the `3.seg2` files.
  It writes no file at all (`ChannelsSplitAcrossPassesWriteNothing`). X and
  Y files come out only when each extension's files hold both lateral
  channels (`BothChannelsInOneFile`).
- A file with an unparseable interval on a matching trace keeps the matches
  collected before that trace (`MidFileFailureKeepsEarlier`). The file is not
  dropped whole.

## Model

| member | source | states |
|---|---|---|
| Paths.JoinShape | controllers/mseed_generator.py:8 | `os.path.join(dir, name)` ends with `name`, preceded by a '/' unless it is `name` itself; an absolute name replaces the directory; otherwise the directory is a prefix and at most one separator is added |
| Paths.BasenameSpec | controllers/mseed_generator.py:22 | `os.path.basename(p)` is a slash-free suffix of `p` that is all of `p` or follows a '/' (the longest slash-free suffix) |
| Paths.BasenameOfJoin | controllers/mseed_generator.py:22 | the station recorded for a file joined from a slash-free listed name is exactly that name |
| Listing.ReadFilesAppend | controllers/mseed_generator.py:8 | the listing order is kept: enumerating two runs of names gives the two results one after the other |
| Listing.ReadFilesSound | controllers/mseed_generator.py:8 | every enumerated path is `join(directory, f)` for a listed `f` ending with the suffix |
| Listing.ReadFilesComplete | controllers/mseed_generator.py:8 | every listed name ending with the suffix is enumerated, joined to the directory |
| Listing.ReadFilesEmpty | controllers/mseed_generator.py:8 | the result is empty exactly when no listed name ends with the suffix |
| Listing.ReadFilesBasenames | controllers/mseed_generator.py:8 | with slash-free names, the base name of every enumerated path is a listed name ending with the suffix |
| Listing.SuffixNotExtension | controllers/mseed_generator.py:8 | matching is on the raw suffix: "x12.seg2" is picked up for "2.seg2", "a3.seg2" is not |
| ChannelFilter.FirstRaise | controllers/mseed_generator.py:19-21 | the index of the first trace whose visit raises (missing channel header, or matching channel with an unparseable interval), or the trace count; no earlier trace raises |
| ChannelFilter.ScanTraces | controllers/mseed_generator.py:19-24 | the per-file trace loop collects exactly the pairs, rates and intervals of the kept traces before the first raising one |
| ChannelFilter.FilterChannelData | controllers/mseed_generator.py:11-33 | fails exactly when the rates seen are not a single value, returning that set; on success returns all collected pairs in file and trace order, the one rate, and an interval that was seen |
| ChannelFilter.AppendMatches | controllers/mseed_generator.py:22-24 | pairs, rates and intervals of concatenated matches are those of each part |
| ChannelFilter.PairsAt | controllers/mseed_generator.py:22 | one (samples, file name) pair per kept trace, in order |
| ChannelFilter.RateSetMembers | controllers/mseed_generator.py:23 | a rate is in the rate set exactly when some kept trace has it |
| ChannelFilter.IntervalSetMembers | controllers/mseed_generator.py:24 | an interval is in the interval set exactly when some kept trace has it |
| ChannelFilter.NonEmptySets | controllers/mseed_generator.py:28-33 | no rate and no interval is seen exactly when nothing was kept |
| ChannelFilter.SuccessShape | controllers/mseed_generator.py:28-33 | after a successful check, at least one pair is returned, every kept trace has the returned rate, and the returned interval belongs to one of them |
| ChannelFilter.KeptMatchesAppend | controllers/mseed_generator.py:19-24 | the kept traces of two runs of traces are those of each, in order |
| ChannelFilter.KeptMatchesMembers | controllers/mseed_generator.py:20-24 | a match is kept exactly when it comes from a trace of the channel whose interval parsed |
| ChannelFilter.FileMatchesPrefix | controllers/mseed_generator.py:17-26 | a readable file contributes a prefix of its kept traces, and all of them when no trace raises |
| ChannelFilter.MatchedAppend | controllers/mseed_generator.py:16-26 | files are processed in order: the matches of two runs of files are those of each, one after the other |
| ChannelFilter.UnreadableSkipped | controllers/mseed_generator.py:17-26 | a file whose read raises contributes nothing and the files after it are still processed |
| ChannelFilter.MatchedComplete | controllers/mseed_generator.py:16-24 | every trace of the channel with a parsed interval, in a readable file and before that file's first raising trace, is collected with the file's base name |
| ChannelFilter.MatchedSound | controllers/mseed_generator.py:16-26 | every collected match comes from a kept trace of a readable file that precedes that file's first raising trace, and carries the file's base name; with `MatchedComplete` this is an if-and-only-if |
| ChannelFilter.NoSuchChannel | controllers/mseed_generator.py:19-20 | a file with no trace labelled with the channel contributes nothing |
| ChannelFilter.NoSuchChannelAnywhere | controllers/mseed_generator.py:28-31 | when no file has the channel, nothing is collected and the single-rate check fails |
| MseedWriter.StreamOf | controllers/mseed_generator.py:42-48 | one output trace per pair, in order, with the pair's samples and file name as station, all with the given rate and delta |
| MseedWriter.BuildStream | controllers/mseed_generator.py:42-48 | the stream-building loop yields exactly `StreamOf` of the pairs |
| MseedWriter.OutputDir.Write | controllers/mseed_generator.py:52-53 | writing adds one file at `join(output_dir, name)` holding the stream and changes nothing else |
| MseedWriter.CreateMseed | controllers/mseed_generator.py:36-56 | empty data writes nothing; otherwise exactly one file `join(output_dir, prefix + "_" + template)` holding the stream of the pairs is added |
| Surveys.WrittenFromFilter | controllers/mseed_generator.py:36-53 | the file written from a successful filter is non-empty and is the one planned for its matches |
| Surveys.LateralExt | controllers/mseed_generator.py:61-78 | one lateral extension writes exactly its planned files: none without files or when either filter fails, otherwise X then Y |
| Surveys.VerticalExt | controllers/mseed_generator.py:84-97 | one vertical extension writes exactly its planned V file, or nothing |
| Surveys.LateralPass | controllers/mseed_generator.py:61-78 | the lateral loop appends exactly the plans of the extensions, in order, and keeps what was already written |
| Surveys.VerticalPass | controllers/mseed_generator.py:84-97 | the vertical loop appends exactly the plans of the vertical extensions, in order |
| Surveys.ProcessFilesCh | controllers/mseed_generator.py:59-78 | the CH survey writes exactly the lateral plans with prefix "CH" |
| Surveys.ProcessFilesDh | controllers/mseed_generator.py:81-117 | the DH survey writes the vertical plans, then the lateral plans with prefix "DH", whatever the vertical loop did |
| Surveys.LateralExtPlansShape | controllers/mseed_generator.py:62-78 | an extension yields X then Y, named `<prefix>_Channel_X_<ext>.mseed` / `..._Y_...` and each non-empty, exactly when it has files and both channels show one rate; otherwise nothing |
| Surveys.PlanForOne | controllers/mseed_generator.py:38-53 | after a successful filter `create_mseed` always writes its one non-empty file |
| Surveys.VerticalExtPlansShape | controllers/mseed_generator.py:85-97 | an extension yields the one file `DH_Channel_V_<ext>.mseed` exactly when it has files and channel 1 shows one rate |
| Surveys.LateralPlansAppend | controllers/mseed_generator.py:61-78 | extensions are processed independently and in order |
| Surveys.VerticalPlansAppend | controllers/mseed_generator.py:84-97 | vertical extensions are processed independently and in order |
| Surveys.VerticalPlansNames | controllers/mseed_generator.py:84-97 | the vertical loop writes at most one file per extension, each the V file of one of them |
| Surveys.LateralPlansBound | controllers/mseed_generator.py:61-78 | the lateral loop writes at most two files per extension |
| Surveys.OutputFileName | controllers/mseed_generator.py:51-52 | an output file is found under the name `<prefix>_<template>` in the output directory |
| Surveys.MissingLateralChannel | controllers/mseed_generator.py:67-72 | an extension none of whose files has channel 2 (or 3) writes neither X nor Y |
| Scenarios.SplitChannels | controllers/mseed_generator.py:67-72 | a pass with only channel 2 and a pass with only channel 3 both write nothing |
| Scenarios.ChannelsSplitAcrossPassesWriteNothing | controllers/mseed_generator.py:59-78 | a CH directory with channel 2 only in "2.seg2" files and channel 3 only in "3.seg2" files produces no output |
| Scenarios.OneFileBothChannels | controllers/mseed_generator.py:62-78 | a pass over one file holding a channel 2 and a channel 3 trace writes X from the first and Y from the second, both tagged with the file's base name |
| Scenarios.VerticalOnlyDirectory | controllers/mseed_generator.py:81-101 | a DH directory with one "1.seg2" file holding a channel 1 trace writes exactly `DH_Channel_V_1.seg2.mseed`, with the listed name as station, and no lateral file |
| Scenarios.BothChannelsInOneFile | controllers/mseed_generator.py:59-78 | a CH directory with one "2.seg2" file holding both lateral channels writes exactly `CH_Channel_X_2.seg2.mseed` and `CH_Channel_Y_2.seg2.mseed`, with the listed name as station |
| Scenarios.MixedRatesRejected | controllers/mseed_generator.py:28-31 | two files whose channel 2 traces disagree on the rate make the rate set hold both, so the check fails |
| Scenarios.MidFileFailureKeepsEarlier | controllers/mseed_generator.py:17-26 | a matching trace with an unparseable interval abandons the rest of its file but keeps the trace collected before it |

## Left out

- Paths follow POSIX `os.path` (`posixpath`): `join` inserts `/` and `basename` splits at `/` only. On Windows `ntpath.join` inserts `\` and `basename` also splits at `\`, so the written path strings differ there. The station names do not, because listed names hold no separator.
- Logging (every `logging.*` call) is not modelled: it has no effect on the files written.
- SEG2 parsing and MiniSEED encoding are not modelled. A file read is its list of traces, and a written file is its path and its traces.
- Sampling rate and delta are two independent fields of an output trace. The library keeps them linked, which is not modelled.
- Rates and intervals are `real`s compared for equality. Floating-point rounding and NaN (never equal to itself in a Python set) are not modelled. Parsing the interval is only success or failure, with the parsed value free.
- A failure of `stream.write` is not modelled. The write always succeeds.
- A failure of `os.listdir` is not modelled. The listing is a parameter.
- The listing is taken once per run, while `read_files` lists the directory again for every extension, after the earlier extensions' files were written. Suppose the output directory is the input directory and a later extension matches the name of an earlier output file. The source would then list that output file and the model would not. With the controllers' extensions no output name (all end in `.mseed`) matches.
- The disk is the same for both lateral filter calls of one extension. Concurrent changes to the input directory are not modelled.
- Overwriting an existing output file appears as a later entry for the same path in the write log.
- The controllers and the GUI that call these functions are not part of this model. `generar_ch` (controllers/ch_controller.py:9) does not accept the format argument the GUI passes it (views/main_view.py:95). `generar_dh` (controllers/dh_controller.py:9) accepts it and passes it on to `process_files_dh` (controllers/dh_controller.py:29), which does not take it (controllers/mseed_generator.py:81). The format choice reaches none of the modelled code.
