/** The shell commands the dispatcher starts (`run_command`, and the `Popen` calls of
    `run_raw`). Starting a process is a foreign call: the model keeps the log of command
    strings handed to the shell and takes each one's exit status from the oracle
    `succeeds` (true: exit status 0). */
module Processes {

  /** `'{} {}'.format(command, line)`: the string `run_command` hands to the shell. */
  function FullCommand(command: string, line: string): (r: string)
    ensures |r| == |command| + 1 + |line|
    ensures r[..|command|] == command && r[|command|] == ' ' && r[|command| + 1..] == line
  {
    command + " " + line
  }

  /** The shell: what it was asked to run so far, and which command strings succeed. */
  class Shell {
    const succeeds: string -> bool
    var executed: seq<string>

    constructor (succeeds: string -> bool)
      ensures this.succeeds == succeeds && executed == []
    {
      this.succeeds := succeeds;
      executed := [];
    }

    /** `run_command(command, line)`: run the command with the line as its arguments and answer
        whether it exited with status 0. */
    method RunCommand(command: string, line: string) returns (ok: bool)
      modifies this
      ensures executed == old(executed) + [FullCommand(command, line)]
      ensures ok == succeeds(FullCommand(command, line))
    {
      executed := executed + [FullCommand(command, line)];
      ok := succeeds(FullCommand(command, line));
    }

    /** `subprocess.Popen(command, shell=True)` followed by `wait()`, exit status ignored. */
    method Popen(command: string)
      modifies this
      ensures executed == old(executed) + [command]
    {
      executed := executed + [command];
    }
  }
}
