/**
 The fixed command line the bot hands to the operating system when it starts
 the transcoder: pull the source with `-re -i`, re-encode with fixed codec,
 bitrate and format settings, and push FLV to the destination.
 */
module Ffmpeg {

  /** The source the bot always streams from (a module-level constant). */
  const StreamInput: string := "https://crichd1.diwij76343.workers.dev/?v=sonyespnind"

  /** Number of arguments in the command line, program name included. */
  const ArgCount: nat := 25

  /** The argument vector for pulling `input` and pushing to `output`. */
  function FfmpegArgs(input: string, output: string): (r: seq<string>)
    ensures |r| == ArgCount
    ensures r[0] == "ffmpeg" && r[2] == "-i" && r[3] == input
    ensures r[|r| - 3] == "-f" && r[|r| - 2] == "flv" && r[|r| - 1] == output
  {
    ["ffmpeg", "-re", "-i", input,
     "-c:v", "libx264", "-preset", "veryfast",
     "-b:v", "2000k", "-maxrate", "2500k", "-bufsize", "3000k",
     "-c:a", "aac", "-b:a", "128k", "-ar", "48000", "-ac", "2",
     "-f", "flv", output]
  }

  /** Apart from the two URLs, every argument is the same whatever the URLs are. */
  lemma FfmpegArgsFixedExceptUrls(input: string, output: string, input': string, output': string)
    ensures forall i :: 0 <= i < ArgCount && i != 3 && i != ArgCount - 1 ==>
              FfmpegArgs(input, output)[i] == FfmpegArgs(input', output')[i]
  {
  }

  /** The two URLs can be read back from the command line, so it determines them. */
  lemma FfmpegArgsDetermineUrls(input: string, output: string, input': string, output': string)
    requires FfmpegArgs(input, output) == FfmpegArgs(input', output')
    ensures input == input' && output == output'
  {
  }
}
