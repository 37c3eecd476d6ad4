/** The command line of the three bundled analysis tools (AneuFiler, Aneu23,
    SHCarrier):

        <exe> -i <file> [-Area] [-STD <name>] [-GBK] [-dev]

    Both front ends (the Electron main process and the Tauri command) build
    argument vectors in this shape. `Parse` reads a vector back into the
    options it carries and is the partner against which both builders are
    proved. */
module ToolCli {
  import opened Wrappers

  /** What one run of a tool is asked to do. */
  datatype Invocation = Invocation(
    input: string,          // the file after -i
    area: bool,             // -Area: use peak-area data
    standard: Option<string>, // -STD <name>: the standard sample's name
    gbk: bool,              // -GBK: GBK-encoded output (SHCarrier on Windows)
    dev: bool)              // -dev: developer mode

  /** `[flag]` when the flag is asked for, nothing otherwise. */
  function FlagPart(present: bool, flag: string): seq<string> {
    if present then [flag] else []
  }

  /** `-STD <name>` when a standard is named, nothing otherwise. */
  function StandardPart(standard: Option<string>): seq<string> {
    match standard
    case Some(name) => ["-STD", name]
    case None => []
  }

  /** The argument vector that asks for `inv`, flags in their fixed order. */
  function Render(inv: Invocation): (args: seq<string>)
    ensures |args| >= 2 && args[0] == "-i" && args[1] == inv.input
  {
    ["-i", inv.input] + FlagPart(inv.area, "-Area") + StandardPart(inv.standard)
      + FlagPart(inv.gbk, "-GBK") + FlagPart(inv.dev, "-dev")
  }

  /** Takes `flag` off the front of `r` when it is there. */
  function TakeFlag(r: seq<string>, flag: string): (bool, seq<string>) {
    if |r| > 0 && r[0] == flag then (true, r[1..]) else (false, r)
  }

  /** Takes `-STD <name>` off the front of `r` when it is there. */
  function TakeStandard(r: seq<string>): (Option<string>, seq<string>) {
    if |r| >= 2 && r[0] == "-STD" then (Some(r[1]), r[2..]) else (None, r)
  }

  /** Reads an argument vector of the shape above, or None when the vector
      does not have that shape. Each optional flag is recognised only in its
      own position, so a standard name that looks like a flag is still read
      as the name. */
  function Parse(args: seq<string>): (r: Option<Invocation>)
    ensures r.Some? ==> |args| >= 2 && args[0] == "-i" && r.value.input == args[1]
  {
    if |args| < 2 || args[0] != "-i" then None
    else
      var (area, r1) := TakeFlag(args[2..], "-Area");
      var (standard, r2) := TakeStandard(r1);
      var (gbk, r3) := TakeFlag(r2, "-GBK");
      var (dev, r4) := TakeFlag(r3, "-dev");
      if r4 != [] then None else Some(Invocation(args[1], area, standard, gbk, dev))
  }

  /** Every invocation is read back exactly from its rendering. */
  lemma ParseRender(inv: Invocation)
    ensures Parse(Render(inv)) == Some(inv)
  {
    var d := FlagPart(inv.dev, "-dev");
    var g := FlagPart(inv.gbk, "-GBK");
    var s := StandardPart(inv.standard);
    DropHeader(["-i", inv.input], FlagPart(inv.area, "-Area"), s, g, d);
    OptionalFlag("-Area", inv.area, s + (g + (d + [])));
    OptionalStandard(inv.standard, g + (d + []));
    OptionalFlag("-GBK", inv.gbk, d + []);
    OptionalFlag("-dev", inv.dev, []);
  }

  /** Dropping a two-element header from a concatenation of five parts. */
  lemma DropHeader<T>(h: seq<T>, a: seq<T>, b: seq<T>, c: seq<T>, d: seq<T>)
    requires |h| == 2
    ensures (h + a + b + c + d)[2..] == a + (b + (c + (d + [])))
  {
    assert h + a + b + c + d == h + (a + (b + (c + (d + []))));
  }

  /** A flag that may precede `rest` is recognised exactly when present, and
      taking it leaves `rest`. */
  lemma OptionalFlag(flag: string, present: bool, rest: seq<string>)
    requires rest == [] || rest[0] != flag
    ensures TakeFlag(FlagPart(present, flag) + rest, flag) == (present, rest)
  {
    if present {
      assert ([flag] + rest)[1..] == rest;
    } else {
      assert [] + rest == rest;
    }
  }

  /** The same for `-STD <name>`, which takes two places. */
  lemma OptionalStandard(standard: Option<string>, rest: seq<string>)
    requires rest == [] || rest[0] != "-STD"
    ensures TakeStandard(StandardPart(standard) + rest) == (standard, rest)
  {
    if standard.Some? {
      assert (["-STD", standard.value] + rest)[2..] == rest;
    } else {
      assert [] + rest == rest;
    }
  }

  /** Two vectors in this shape that ask for the same invocation are equal. */
  lemma RenderInjective(a: Invocation, b: Invocation)
    requires Render(a) == Render(b)
    ensures a == b
  {
    ParseRender(a);
    ParseRender(b);
  }
}
