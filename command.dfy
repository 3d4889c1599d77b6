/**
 * Command validation (validate_cmd): the resolver's matches for the program
 * name must be unique, the unique match replaces element 0 in place, and the
 * command must leave room in the fixed argv array.
 */
module Command {
  import opened Outcomes

  /** Number of slots of the argv array built in the child, terminator included. */
  const MaxArgs: nat := 256

  /**
   * What validation makes of a command, given the resolver's matches for its
   * first element: the command to launch, or the error raised.
   */
  function Validated(cmd: seq<string>, paths: seq<string>): (r: Result<seq<string>>)
    requires |cmd| > 0
    ensures r.Ok? <==> |paths| == 1 && |cmd| < MaxArgs - 1
    ensures |paths| == 0 ==> r == Err(NotFound(cmd[0]))
    ensures |paths| > 1 ==> r == Err(Ambiguous(cmd[0], |paths|))
    ensures |paths| == 1 && r.Err? ==> r.error == TooManyArguments(|cmd|)
    ensures r.Ok? ==> |r.value| == |cmd| && r.value[0] == paths[0] && r.value[1..] == cmd[1..]
  {
    if |paths| == 0 then Err(NotFound(cmd[0]))
    else if |paths| > 1 then Err(Ambiguous(cmd[0], |paths|))
    else if |cmd| >= MaxArgs - 1 then Err(TooManyArguments(|cmd|))
    else Ok(cmd[0 := paths[0]])
  }

  /**
   * validate_cmd on the command vector, which it rewrites in place.  Element 0
   * is rewritten as soon as the match is found to be unique, so a command
   * rejected for its length has already had element 0 replaced.
   */
  method ValidateCmd(cmd: array<string>, paths: seq<string>) returns (o: Outcome)
    requires cmd.Length > 0
    modifies cmd
    ensures var v := Validated(old(cmd[..]), paths);
      (v.Ok? ==> o == Pass && cmd[..] == v.value) && (v.Err? ==> o == Fail(v.error))
    ensures |paths| != 1 ==> cmd[..] == old(cmd[..])
    ensures |paths| == 1 ==> cmd[..] == old(cmd[..])[0 := paths[0]]
  {
    if |paths| == 0 {
      return Fail(NotFound(cmd[0]));
    } else if |paths| == 1 {
      cmd[0] := paths[0];
    } else {
      return Fail(Ambiguous(cmd[0], |paths|));
    }
    if cmd.Length >= MaxArgs - 1 {
      return Fail(TooManyArguments(cmd.Length));
    }
    o := Pass;
  }

  /**
   * An accepted command has at most 254 elements, so its strings and the
   * null terminator fit the argv array with one slot to spare.
   */
  lemma AcceptedFitsArgv(cmd: seq<string>, paths: seq<string>)
    requires |cmd| > 0 && Validated(cmd, paths).Ok?
    ensures |Validated(cmd, paths).value| <= MaxArgs - 2
    ensures |Validated(cmd, paths).value| + 1 < MaxArgs
  {
  }
}
