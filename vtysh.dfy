/**
 * The shape of every command script the providers hand to `vtysh`, and the
 * argument vector they build from it.
 */
module Vtysh {
  import opened Common

  /**
   * A configuration session: enter configuration mode, run `body`, leave it
   * and save the running configuration.
   */
  function Session(body: seq<string>): (cmds: seq<string>)
    ensures |cmds| == |body| + 3
    ensures cmds[0] == "configure terminal" && cmds[1..|cmds| - 2] == body
    ensures cmds[|cmds| - 2] == "end" && cmds[|cmds| - 1] == "write memory"
  {
    ["configure terminal"] + body + ["end", "write memory"]
  }

  /**
   * `cmds.reduce([]) { |cmds, cmd| cmds << '-c' << cmd }`: every command
   * preceded by the `-c` flag.
   */
  function Argv(cmds: seq<string>): (argv: seq<string>)
    ensures |argv| == 2 * |cmds|
    ensures forall i :: 0 <= i < |cmds| ==> argv[2 * i] == "-c" && argv[2 * i + 1] == cmds[i]
  {
    if cmds == [] then [] else Argv(cmds[..|cmds| - 1]) + ["-c", cmds[|cmds| - 1]]
  }

  /** What `vtysh` reads back from an argument vector of `-c` pairs: every second word. */
  function Commands(argv: seq<string>): (cmds: seq<string>)
    ensures |cmds| == |argv| / 2
  {
    if |argv| < 2 then [] else [argv[1]] + Commands(argv[2..])
  }

  /** The argument vector carries exactly the script, in order. */
  lemma {:induction false} CommandsOfArgv(cmds: seq<string>)
    ensures Commands(Argv(cmds)) == cmds
  {
    var argv := Argv(cmds);
    if cmds != [] {
      var tail := cmds[1..];
      CommandsOfArgv(tail);
      var tailArgv := Argv(tail);
      assert argv[2..] == tailArgv by {
        forall i | 0 <= i < |tail|
          ensures argv[2..][2 * i] == tailArgv[2 * i] && argv[2..][2 * i + 1] == tailArgv[2 * i + 1]
        {
          assert argv[2 * (i + 1)] == "-c" && argv[2 * (i + 1) + 1] == cmds[i + 1];
        }
        forall j | 0 <= j < |tailArgv|
          ensures argv[2..][j] == tailArgv[j]
        {
          var i := j / 2;
          assert j == 2 * i || j == 2 * i + 1;
        }
      }
      assert argv[1] == cmds[0];
      HeadTail(cmds);
    }
  }
}
