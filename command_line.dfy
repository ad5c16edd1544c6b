/**
 * `parseCommandLine` of the server's entry point: a scan over `argv` from
 * index 1 that updates a `ServerConfig` through its setters.
 *
 * The text-to-number conversions (`std::stoi`, `std::stof`) are parameters; a
 * conversion that fails (the source's exception) yields `None` and ends the
 * scan. `--help` prints usage and exits the process; here it ends the scan
 * with `HelpShown`.
 */
module CommandLine {
  import opened Wrappers
  import opened ServerConfigs

  datatype Conversions = Conversions(stoi: string -> Option<int>, stof: string -> Option<real>)

  /** How the scan ended. */
  datatype Stop = Finished | HelpShown | ConversionFailed

  /** The options the scan recognises. */
  predicate IsOption(arg: string) {
    arg == "--port" || arg == "--max-clients" || arg == "--update-rate"
    || arg == "--quiet" || arg == "--log" || arg == "--help"
  }

  /** The options that take the next argument as their value. */
  predicate TakesValue(arg: string) {
    arg == "--port" || arg == "--max-clients" || arg == "--update-rate" || arg == "--log"
  }

  /** `static_cast<unsigned short>` of an `int`: the value modulo 2^16. */
  function ToPort(n: int): (p: Port)
    ensures 0 <= n < 0x1_0000 ==> p == n
    ensures (p - n) % 0x1_0000 == 0
  {
    n % 0x1_0000
  }

  /** The scan from index `i` on, starting from configuration `c`. */
  function ParseFrom(conv: Conversions, args: seq<string>, i: nat, c: ConfigView): (r: (ConfigView, Stop))
    ensures r.1 == HelpShown ==> exists k :: i <= k < |args| && args[k] == "--help"
    ensures r.1 == ConversionFailed ==> exists k :: i <= k < |args| - 1 && TakesValue(args[k]) && args[k] != "--log"
    decreases |args| - i
  {
    if i >= |args| then (c, Finished)
    else
      var arg := args[i];
      var hasValue := i + 1 < |args|;
      if arg == "--port" && hasValue then
        match conv.stoi(args[i + 1])
        case None => (c, ConversionFailed)
        case Some(n) => ParseFrom(conv, args, i + 2, c.(port := ToPort(n)))
      else if arg == "--max-clients" && hasValue then
        match conv.stoi(args[i + 1])
        case None => (c, ConversionFailed)
        case Some(n) => ParseFrom(conv, args, i + 2, c.(maxClients := n))
      else if arg == "--update-rate" && hasValue then
        match conv.stof(args[i + 1])
        case None => (c, ConversionFailed)
        case Some(x) => ParseFrom(conv, args, i + 2, c.(updateRate := x))
      else if arg == "--quiet" then
        ParseFrom(conv, args, i + 1, c.(verbose := false))
      else if arg == "--log" && hasValue then
        ParseFrom(conv, args, i + 2, c.(logFile := args[i + 1]))
      else if arg == "--help" then
        (c, HelpShown)
      else
        ParseFrom(conv, args, i + 1, c)
  }

  /** The whole scan: `argv[0]`, the program name, is skipped. */
  function Parse(conv: Conversions, args: seq<string>, c: ConfigView): (r: (ConfigView, Stop))
    ensures |args| <= 1 ==> r == (c, Finished)
    ensures r.1 == HelpShown ==> "--help" in args[1..]
  {
    ParseFrom(conv, args, 1, c)
  }

  /** The scan from index `i` depends only on the arguments from `i` on. */
  lemma {:induction false} ParseFromTail(conv: Conversions, args: seq<string>, i: nat, c: ConfigView)
    requires i <= |args|
    ensures ParseFrom(conv, args, i, c) == ParseFrom(conv, args[i..], 0, c)
    decreases |args| - i
  {
    var t := args[i..];
    if i < |args| {
      assert t[0] == args[i];
      if i + 1 < |args| {
        assert t[1] == args[i + 1];
      }
      if i + 2 <= |args| {
        assert args[i + 2..] == t[2..];
        forall c' | true
          ensures ParseFrom(conv, args, i + 2, c') == ParseFrom(conv, t, 2, c')
        {
          ParseFromTail(conv, args, i + 2, c');
          ParseFromTail(conv, t, 2, c');
        }
      }
      assert args[i + 1..] == t[1..];
      forall c' | true
        ensures ParseFrom(conv, args, i + 1, c') == ParseFrom(conv, t, 1, c')
      {
        ParseFromTail(conv, args, i + 1, c');
        ParseFromTail(conv, t, 1, c');
      }
    }
  }

  /** The program name is never examined. */
  lemma ProgramNameIgnored(conv: Conversions, a: string, b: string, rest: seq<string>, c: ConfigView)
    ensures Parse(conv, [a] + rest, c) == Parse(conv, [b] + rest, c)
  {
    ParseFromTail(conv, [a] + rest, 1, c);
    ParseFromTail(conv, [b] + rest, 1, c);
    assert ([a] + rest)[1..] == rest == ([b] + rest)[1..];
  }

  /** Each option, followed by its value where it takes one, sets its own
      field and the scan goes on after it. */
  lemma OptionStep(conv: Conversions, opt: string, v: string, rest: seq<string>, c: ConfigView)
    ensures opt == "--port" && conv.stoi(v).Some? ==>
      ParseFrom(conv, [opt, v] + rest, 0, c) == ParseFrom(conv, rest, 0, c.(port := ToPort(conv.stoi(v).value)))
    ensures opt == "--max-clients" && conv.stoi(v).Some? ==>
      ParseFrom(conv, [opt, v] + rest, 0, c) == ParseFrom(conv, rest, 0, c.(maxClients := conv.stoi(v).value))
    ensures opt == "--update-rate" && conv.stof(v).Some? ==>
      ParseFrom(conv, [opt, v] + rest, 0, c) == ParseFrom(conv, rest, 0, c.(updateRate := conv.stof(v).value))
    ensures opt == "--log" ==>
      ParseFrom(conv, [opt, v] + rest, 0, c) == ParseFrom(conv, rest, 0, c.(logFile := v))
    ensures opt == "--quiet" ==>
      ParseFrom(conv, [opt] + rest, 0, c) == ParseFrom(conv, rest, 0, c.(verbose := false))
    ensures opt == "--help" ==> ParseFrom(conv, [opt] + rest, 0, c) == (c, HelpShown)
  {
    var s := [opt, v] + rest;
    assert s[0] == opt && s[1] == v && s[2..] == rest;
    forall c' | true
      ensures ParseFrom(conv, s, 2, c') == ParseFrom(conv, rest, 0, c')
    {
      ParseFromTail(conv, s, 2, c');
    }
    var q := [opt] + rest;
    assert q[0] == opt && q[1..] == rest;
    ParseFromTail(conv, q, 1, c.(verbose := false));
  }

  /** An argument that is not an option is skipped. */
  lemma UnrecognisedSkipped(conv: Conversions, arg: string, rest: seq<string>, c: ConfigView)
    requires !IsOption(arg)
    ensures ParseFrom(conv, [arg] + rest, 0, c) == ParseFrom(conv, rest, 0, c)
  {
    var q := [arg] + rest;
    assert q[0] == arg && q[1..] == rest;
    ParseFromTail(conv, q, 1, c);
  }

  /** An option that needs a value but comes last is ignored. */
  lemma TrailingOptionIgnored(conv: Conversions, args: seq<string>, c: ConfigView)
    requires |args| >= 1 && TakesValue(args[|args| - 1])
    ensures ParseFrom(conv, args, |args| - 1, c) == (c, Finished)
  {
  }

  /** Arguments none of which is an option leave the configuration as it was. */
  lemma {:induction false} NoOptionsNoChange(conv: Conversions, args: seq<string>, i: nat, c: ConfigView)
    requires forall k :: i <= k < |args| ==> !IsOption(args[k])
    ensures ParseFrom(conv, args, i, c) == (c, Finished)
    decreases |args| - i
  {
    if i < |args| {
      NoOptionsNoChange(conv, args, i + 1, c);
    }
  }

  /** The scan from `i` never meets a value-taking option as the last
      argument: every option that needs a value finds one inside `args`. */
  predicate Complete(args: seq<string>, i: nat)
    decreases |args| - i
  {
    if i >= |args| then true
    else if TakesValue(args[i]) then i + 1 < |args| && Complete(args, i + 2)
    else Complete(args, i + 1)
  }

  /** A scan over `xs + zs` goes through `xs` as a scan of `xs` alone does;
      unless that stops it, it goes on with `zs` from the configuration `xs`
      left. */
  lemma {:induction false} ScanSplit(conv: Conversions, xs: seq<string>, zs: seq<string>, i: nat, c: ConfigView)
    requires i <= |xs| && Complete(xs, i)
    ensures var r := ParseFrom(conv, xs, i, c);
            ParseFrom(conv, xs + zs, i, c) == if r.1 == Finished then ParseFrom(conv, zs, 0, r.0) else r
    decreases |xs| - i
  {
    var s := xs + zs;
    if i == |xs| {
      ParseFromTail(conv, s, i, c);
      assert s[i..] == zs;
    } else {
      var arg := xs[i];
      assert s[i] == arg;
      if TakesValue(arg) {
        var v := xs[i + 1];
        assert s[i + 1] == v;
        if arg == "--port" {
          if conv.stoi(v).Some? {
            ScanSplit(conv, xs, zs, i + 2, c.(port := ToPort(conv.stoi(v).value)));
          }
        } else if arg == "--max-clients" {
          if conv.stoi(v).Some? {
            ScanSplit(conv, xs, zs, i + 2, c.(maxClients := conv.stoi(v).value));
          }
        } else if arg == "--update-rate" {
          if conv.stof(v).Some? {
            ScanSplit(conv, xs, zs, i + 2, c.(updateRate := conv.stof(v).value));
          }
        } else {
          ScanSplit(conv, xs, zs, i + 2, c.(logFile := v));
        }
      } else if arg == "--quiet" {
        ScanSplit(conv, xs, zs, i + 1, c.(verbose := false));
      } else if arg != "--help" {
        ScanSplit(conv, xs, zs, i + 1, c);
      }
    }
  }

  /** `a` and `b` agree on the field option `o` sets. */
  predicate SameField(o: string, a: ConfigView, b: ConfigView) {
    if o == "--port" then a.port == b.port
    else if o == "--max-clients" then a.maxClients == b.maxClients
    else if o == "--update-rate" then a.updateRate == b.updateRate
    else if o == "--log" then a.logFile == b.logFile
    else a.verbose == b.verbose
  }

  /** Configuration `c` holds the value `v` given to option `o`. */
  predicate HoldsValue(conv: Conversions, o: string, v: string, c: ConfigView) {
    if o == "--port" then conv.stoi(v).Some? && c.port == ToPort(conv.stoi(v).value)
    else if o == "--max-clients" then conv.stoi(v).Some? && c.maxClients == conv.stoi(v).value
    else if o == "--update-rate" then conv.stof(v).Some? && c.updateRate == conv.stof(v).value
    else o == "--log" && c.logFile == v
  }

  /** A scan over arguments that do not include a value-taking option `o`
      leaves the field of `o` alone. */
  lemma {:induction false} FieldUntouched(conv: Conversions, o: string, args: seq<string>, i: nat, c: ConfigView)
    requires TakesValue(o)
    requires forall k :: i <= k < |args| ==> args[k] != o
    ensures SameField(o, ParseFrom(conv, args, i, c).0, c)
    decreases |args| - i
  {
    if i < |args| {
      var arg := args[i];
      var hasValue := i + 1 < |args|;
      if arg == "--port" && hasValue {
        if conv.stoi(args[i + 1]).Some? {
          FieldUntouched(conv, o, args, i + 2, c.(port := ToPort(conv.stoi(args[i + 1]).value)));
        }
      } else if arg == "--max-clients" && hasValue {
        if conv.stoi(args[i + 1]).Some? {
          FieldUntouched(conv, o, args, i + 2, c.(maxClients := conv.stoi(args[i + 1]).value));
        }
      } else if arg == "--update-rate" && hasValue {
        if conv.stof(args[i + 1]).Some? {
          FieldUntouched(conv, o, args, i + 2, c.(updateRate := conv.stof(args[i + 1]).value));
        }
      } else if arg == "--quiet" {
        FieldUntouched(conv, o, args, i + 1, c.(verbose := false));
      } else if arg == "--log" && hasValue {
        FieldUntouched(conv, o, args, i + 2, c.(logFile := args[i + 1]));
      } else if arg != "--help" {
        FieldUntouched(conv, o, args, i + 1, c);
      }
    }
  }

  /** No option turns verbosity back on. */
  lemma {:induction false} QuietStays(conv: Conversions, args: seq<string>, i: nat, c: ConfigView)
    requires !c.verbose
    ensures !ParseFrom(conv, args, i, c).0.verbose
    decreases |args| - i
  {
    if i < |args| {
      var arg := args[i];
      var hasValue := i + 1 < |args|;
      if arg == "--port" && hasValue {
        if conv.stoi(args[i + 1]).Some? {
          QuietStays(conv, args, i + 2, c.(port := ToPort(conv.stoi(args[i + 1]).value)));
        }
      } else if arg == "--max-clients" && hasValue {
        if conv.stoi(args[i + 1]).Some? {
          QuietStays(conv, args, i + 2, c.(maxClients := conv.stoi(args[i + 1]).value));
        }
      } else if arg == "--update-rate" && hasValue {
        if conv.stof(args[i + 1]).Some? {
          QuietStays(conv, args, i + 2, c.(updateRate := conv.stof(args[i + 1]).value));
        }
      } else if arg == "--quiet" {
        QuietStays(conv, args, i + 1, c.(verbose := false));
      } else if arg == "--log" && hasValue {
        QuietStays(conv, args, i + 2, c.(logFile := args[i + 1]));
      } else if arg != "--help" {
        QuietStays(conv, args, i + 1, c);
      }
    }
  }

  /** When a value-taking option occurs more than once, its last occurrence
      decides its field: whatever comes before it, as long as the scan reaches
      it, and whatever other arguments follow it, `--help` and failed
      conversions included. */
  lemma LastOccurrenceWins(conv: Conversions, xs: seq<string>, o: string, v: string, ys: seq<string>, c: ConfigView)
    requires TakesValue(o) && Complete(xs, 0) && ParseFrom(conv, xs, 0, c).1 == Finished
    requires (o == "--port" || o == "--max-clients") ==> conv.stoi(v).Some?
    requires o == "--update-rate" ==> conv.stof(v).Some?
    requires o !in ys
    ensures HoldsValue(conv, o, v, ParseFrom(conv, xs + [o, v] + ys, 0, c).0)
  {
    var d := ParseFrom(conv, xs, 0, c).0;
    assert xs + [o, v] + ys == xs + ([o, v] + ys);
    ScanSplit(conv, xs, [o, v] + ys, 0, c);
    OptionStep(conv, o, v, ys, d);
    var e := if o == "--port" then d.(port := ToPort(conv.stoi(v).value))
             else if o == "--max-clients" then d.(maxClients := conv.stoi(v).value)
             else if o == "--update-rate" then d.(updateRate := conv.stof(v).value)
             else d.(logFile := v);
    FieldUntouched(conv, o, ys, 0, e);
  }

  /** Once the scan reaches `--quiet`, verbosity stays off, whatever follows. */
  lemma QuietWins(conv: Conversions, xs: seq<string>, ys: seq<string>, c: ConfigView)
    requires Complete(xs, 0) && ParseFrom(conv, xs, 0, c).1 == Finished
    ensures !ParseFrom(conv, xs + ["--quiet"] + ys, 0, c).0.verbose
  {
    var d := ParseFrom(conv, xs, 0, c).0;
    assert xs + ["--quiet"] + ys == xs + (["--quiet"] + ys);
    ScanSplit(conv, xs, ["--quiet"] + ys, 0, c);
    OptionStep(conv, "--quiet", "", ys, d);
    QuietStays(conv, ys, 0, d.(verbose := false));
  }

  /** `parseCommandLine`: the loop over `argv`, applying each option through
      the configuration's setters. */
  method ParseCommandLine(conv: Conversions, args: seq<string>, config: ServerConfig) returns (stop: Stop)
    modifies config
    ensures (config.View(), stop) == Parse(conv, args, old(config.View()))
  {
    var i := 1;
    stop := Finished;
    var scanning := true;
    while scanning && i < |args|
      invariant 1 <= i
      invariant scanning ==> stop == Finished
      invariant scanning ==> ParseFrom(conv, args, i, config.View()) == Parse(conv, args, old(config.View()))
      invariant !scanning ==> (config.View(), stop) == Parse(conv, args, old(config.View()))
      decreases |args| - i, scanning
    {
      var arg := args[i];
      if arg == "--port" && i + 1 < |args| {
        i := i + 1;
        var n := conv.stoi(args[i]);
        if n.None? {
          stop := ConversionFailed;
          scanning := false;
        } else {
          config.SetPort(ToPort(n.value));
        }
      } else if arg == "--max-clients" && i + 1 < |args| {
        i := i + 1;
        var n := conv.stoi(args[i]);
        if n.None? {
          stop := ConversionFailed;
          scanning := false;
        } else {
          config.SetMaxClients(n.value);
        }
      } else if arg == "--update-rate" && i + 1 < |args| {
        i := i + 1;
        var x := conv.stof(args[i]);
        if x.None? {
          stop := ConversionFailed;
          scanning := false;
        } else {
          config.SetUpdateRate(x.value);
        }
      } else if arg == "--quiet" {
        config.SetVerbose(false);
      } else if arg == "--log" && i + 1 < |args| {
        i := i + 1;
        config.SetLogFile(args[i]);
      } else if arg == "--help" {
        stop := HelpShown;
        scanning := false;
      }
      if scanning {
        i := i + 1;
      }
    }
  }
}
