/** The RGBD merger port's implementation: it builds an ffmpeg command that
    stacks the source and depth videos side by side, with the extracted
    audio track when there is one, runs it, and turns a non-zero exit status
    into an exception carrying ffmpeg's error output. Locating the ffmpeg
    executable and running the process are represented by their results. */
module MergeService {
  import opened Outcomes
  import opened Paths

  const Hstack := "[0:v][1:v]hstack=inputs=2[v]"
  const MergeFailed := "ffmpeg merge failed: "
  /** The `timeout` given to `subprocess.run`, in seconds. */
  const Timeout := 600

  /** `flag` is immediately followed by `value` somewhere in `args`. */
  predicate HasPair(args: seq<string>, flag: string, value: string) {
    exists k | 0 <= k < |args| - 1 :: args[k] == flag && args[k + 1] == value
  }

  /** The options between the inputs and the output, for the branch with an
      audio track and for the silent one. */
  function MergeOptions(withAudio: bool): seq<string> {
    if withAudio then
      ["-filter_complex", Hstack, "-map", "[v]", "-map", "2:a", "-c:v", "libx264", "-crf", "18", "-c:a", "aac", "-shortest"]
    else
      ["-filter_complex", Hstack, "-map", "[v]", "-c:v", "libx264", "-crf", "18", "-an"]
  }

  /** Both branches stack the two videos with the same filter, map the
      stacked stream, encode it with libx264 at CRF 18, and add no input. */
  lemma SharedOptions(withAudio: bool)
    ensures var opts := MergeOptions(withAudio);
      && HasPair(opts, "-filter_complex", Hstack) && HasPair(opts, "-map", "[v]")
      && HasPair(opts, "-c:v", "libx264") && HasPair(opts, "-crf", "18")
      && "-i" !in opts
  {
    var opts := MergeOptions(withAudio);
    assert opts[0] == "-filter_complex" && opts[1] == Hstack;
    assert opts[2] == "-map" && opts[3] == "[v]";
    if withAudio {
      assert opts[6] == "-c:v" && opts[7] == "libx264" && opts[8] == "-crf" && opts[9] == "18";
    } else {
      assert opts[4] == "-c:v" && opts[5] == "libx264" && opts[6] == "-crf" && opts[7] == "18";
    }
  }

  /** The audio stream is mapped, encoded as AAC and cut to the shorter
      stream exactly in the audio branch; audio is dropped exactly in the
      silent one. */
  lemma AudioOptions(withAudio: bool)
    ensures var opts := MergeOptions(withAudio);
      && (HasPair(opts, "-map", "2:a") <==> withAudio)
      && (HasPair(opts, "-c:a", "aac") <==> withAudio)
      && ("-shortest" in opts <==> withAudio)
      && ("-an" in opts <==> !withAudio)
  {
    var opts := MergeOptions(withAudio);
    if withAudio {
      assert opts[4] == "-map" && opts[5] == "2:a" && opts[10] == "-c:a" && opts[11] == "aac";
    } else {
      assert forall k | 0 <= k < |opts| :: opts[k] != "2:a" && opts[k] != "aac";
    }
  }

  /** The `cmd` list of `merge`. The audio track is used when a path is given
      and that file exists (`audioExists`). */
  method Command(ffmpeg: string, src: Path, depth: Path, output: Path, audio: Option<Path>, audioExists: bool)
    returns (cmd: seq<string>)
    ensures var withAudio := audio.Some? && audioExists;
      cmd == [ffmpeg, "-y", "-i", Paths.Text(src), "-i", Paths.Text(depth)]
             + (if withAudio then ["-i", Paths.Text(audio.value)] else [])
             + MergeOptions(withAudio) + [Paths.Text(output)]
  {
    cmd := [ffmpeg, "-y", "-i", Paths.Text(src), "-i", Paths.Text(depth)];
    if audio.Some? && audioExists {
      cmd := cmd + ["-i", Paths.Text(audio.value)];
      cmd := cmd + ["-filter_complex", Hstack, "-map", "[v]", "-map", "2:a", "-c:v", "libx264",
                    "-crf", "18", "-c:a", "aac", "-shortest", Paths.Text(output)];
    } else {
      cmd := cmd + ["-filter_complex", Hstack, "-map", "[v]", "-c:v", "libx264",
                    "-crf", "18", "-an", Paths.Text(output)];
    }
  }

  /** How the process ended: with an exit status and its error output, or
      by `subprocess.run` raising (the timeout expiring, no executable). */
  datatype Completed = Exited(returncode: int, stderr: string) | RunRaised(error: string)

  /** `merge`. Locating ffmpeg (`locate`) comes first, while the command is
      built: when that raises, the exception propagates and nothing is run.
      Otherwise the command is run with a 600-second timeout; exit status 0
      returns normally, any other status raises with ffmpeg's error output
      after a fixed prefix, and an exception of the run itself propagates. */
  method Merge(locate: Result<string>, src: Path, depth: Path, output: Path, audio: Option<Path>, audioExists: bool,
               completed: Completed) returns (o: Outcome, ran: Option<seq<string>>, timeout: nat)
    ensures locate.Failure? ==> o == Fail(locate.error) && ran == None
    ensures locate.Success? ==> var withAudio := audio.Some? && audioExists;
      ran == Some([locate.value, "-y", "-i", Paths.Text(src), "-i", Paths.Text(depth)]
                  + (if withAudio then ["-i", Paths.Text(audio.value)] else [])
                  + MergeOptions(withAudio) + [Paths.Text(output)])
    ensures timeout == Timeout
    ensures o.Pass? <==> locate.Success? && completed.Exited? && completed.returncode == 0
    ensures locate.Success? && completed.Exited? && completed.returncode != 0 ==>
      o == Fail(MergeFailed + completed.stderr)
    ensures locate.Success? && completed.RunRaised? ==> o == Fail(completed.error)
  {
    timeout := Timeout;
    if locate.Failure? {
      return Fail(locate.error), None, timeout;
    }
    var cmd := Command(locate.value, src, depth, output, audio, audioExists);
    ran := Some(cmd);
    match completed
    case RunRaised(error) =>
      o := Fail(error);
    case Exited(returncode, stderr) =>
      if returncode != 0 {
        o := Fail(MergeFailed + stderr);
      } else {
        o := Pass;
      }
  }

  /** The command starts with the executable, `-y` and the source and depth
      inputs; its last argument is the output; it has a third input, the
      audio file, exactly when an audio path was given and exists, and
      otherwise drops audio. */
  lemma CommandLayout(ffmpeg: string, src: Path, depth: Path, output: Path, audio: Option<Path>, audioExists: bool,
                      cmd: seq<string>)
    requires var withAudio := audio.Some? && audioExists;
      cmd == [ffmpeg, "-y", "-i", Paths.Text(src), "-i", Paths.Text(depth)]
             + (if withAudio then ["-i", Paths.Text(audio.value)] else [])
             + MergeOptions(withAudio) + [Paths.Text(output)]
    ensures |cmd| > 8 && cmd[..6] == [ffmpeg, "-y", "-i", Paths.Text(src), "-i", Paths.Text(depth)]
    ensures cmd[|cmd| - 1] == Paths.Text(output)
    ensures audio.Some? && audioExists ==>
      cmd[6..8] == ["-i", Paths.Text(audio.value)] && cmd[8..|cmd| - 1] == MergeOptions(true)
    ensures !(audio.Some? && audioExists) ==>
      cmd[6..|cmd| - 1] == MergeOptions(false) && "-an" in cmd[6..|cmd| - 1] && "-i" !in cmd[6..|cmd| - 1]
  {
    var head := [ffmpeg, "-y", "-i", Paths.Text(src), "-i", Paths.Text(depth)];
    var withAudio := audio.Some? && audioExists;
    var extra := if withAudio then ["-i", Paths.Text(audio.value)] else [];
    Pieces(head, extra, MergeOptions(withAudio), Paths.Text(output), cmd);
    if !withAudio {
      SharedOptions(false);
      AudioOptions(false);
    }
  }

  lemma Pieces(head: seq<string>, extra: seq<string>, opts: seq<string>, last: string, cmd: seq<string>)
    requires cmd == head + extra + opts + [last]
    ensures |cmd| == |head| + |extra| + |opts| + 1
    ensures cmd[..|head|] == head && cmd[|cmd| - 1] == last
    ensures cmd[|head|..|head| + |extra|] == extra
    ensures cmd[|head| + |extra|..|cmd| - 1] == opts
  {
    assert cmd[..|head|] == head;
    assert cmd[|head|..|head| + |extra|] == extra;
    assert cmd[|head| + |extra|..|cmd| - 1] == opts;
  }
}
