/**
  The command line the exporter passes to the measurement tool, and an
  independent reading of such a command line, used to state what the
  arguments ask the tool to do.
 */
module Runner {
  import opened Optional

  /** The flags passed on every run, in order. */
  const FixedFlags: seq<string> :=
    ["--accept-license", "--accept-gdpr", "--format", "json", "--unit", "B/s"]

  /**
    The argument list for one run: the fixed flags, then `-s serverID` when a
    server was configured (an empty id lets the tool choose).
   */
  function Args(serverID: string): (args: seq<string>)
    ensures |args| == (if serverID == "" then 6 else 8)
    ensures args[..6] == FixedFlags
    ensures serverID != "" ==> args[6] == "-s" && args[7] == serverID
  {
    if serverID == "" then FixedFlags else FixedFlags + ["-s", serverID]
  }

  /** What a command line asks of the tool. */
  datatype Invocation = Invocation(
    acceptLicense: bool,
    acceptGdpr: bool,
    format: Option<string>,
    unit: Option<string>,
    server: Option<string>)

  const NoOptions: Invocation := Invocation(false, false, None, None, None)

  /**
    Reads a command line word by word: the two acceptance switches stand
    alone, `--format`, `--unit` and `-s` each take the next word as their
    value. An unknown word or a missing value makes the line unreadable.
   */
  function Parse(args: seq<string>, inv: Invocation): Option<Invocation>
    decreases |args|
  {
    if |args| == 0 then Some(inv)
    else if args[0] == "--accept-license" then Parse(args[1..], inv.(acceptLicense := true))
    else if args[0] == "--accept-gdpr" then Parse(args[1..], inv.(acceptGdpr := true))
    else if |args| < 2 then None
    else if args[0] == "--format" then Parse(args[2..], inv.(format := Some(args[1])))
    else if args[0] == "--unit" then Parse(args[2..], inv.(unit := Some(args[1])))
    else if args[0] == "-s" then Parse(args[2..], inv.(server := Some(args[1])))
    else None
  }

  /** The invocation the exporter means for a configured server id. */
  function Intended(serverID: string): Invocation {
    Invocation(true, true, Some("json"), Some("B/s"), if serverID == "" then None else Some(serverID))
  }

  /**
    Every argument list the exporter builds reads back as: both licences
    accepted, JSON output, bytes per second, and a server selector exactly
    when a non-empty server id was configured, carrying that id.
   */
  lemma ArgsReadBack(serverID: string)
    ensures Parse(Args(serverID), NoOptions) == Some(Intended(serverID))
  {
    var a := Args(serverID);
    var tail: seq<string> := if serverID == "" then [] else ["-s", serverID];
    var i2 := Invocation(true, true, None, None, None);
    var i3 := i2.(format := Some("json"));
    var i4 := i3.(unit := Some("B/s"));
    assert a == FixedFlags + tail;
    assert a[1..] == FixedFlags[1..] + tail;
    assert a[2..] == FixedFlags[2..] + tail;
    assert a[4..] == FixedFlags[4..] + tail;
    assert a[6..] == tail;
    if serverID != "" {
      assert tail[2..] == [];
    }
    assert Parse(tail, i4) == Some(Intended(serverID));
    assert Parse(a[4..], i3) == Parse(tail, i4);
    assert Parse(a[2..], i2) == Parse(a[4..], i3);
    assert Parse(a, NoOptions) == Parse(a[2..], i2);
  }
}
