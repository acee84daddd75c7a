/**
 * The `quagga_bgp_network` provider: the scanner that names every
 * ` network P` line of a `router bgp AS` block `"AS P"`, and the scripts
 * `create` and `destroy` hand to `vtysh`.
 */
module BgpNetwork {
  import opened Common
  import opened Text
  import opened Vtysh
  import Prefetch

  /** The property hash of one announced network: `name` (`"AS P"`) and `ensure`. */
  datatype Network = Network(name: string, ensure: Ensure)

  // ---------------------------------------------------------------------
  // The line recognisers.

  /** The fixed part `\Arouter\sbgp\s` of the block header's pattern. */
  const RouterPrefix: seq<Tok> := [Lit("router"), Sp, Lit("bgp"), Sp]

  /** The fixed part `\A\snetwork\s` of the network line's pattern. */
  const NetworkPrefix: seq<Tok> := [Sp, Lit("network"), Sp]

  /** `[\h\.\/:]`: a character of a prefix. */
  predicate IsPrefixChar(c: char) {
    IsHexDigit(c) || c == '.' || c == '/' || c == ':'
  }

  /** `[\h\.\/:]+`. */
  predicate IsPrefix(p: string) {
    |p| > 0 && forall i :: 0 <= i < |p| ==> IsPrefixChar(p[i])
  }

  /** `/\Arouter\sbgp\s(\d+)\Z/` and its capture, the AS number. */
  function RouterAs(line: string): (r: Option<string>)
    ensures r.Some? ==> AllDigits(r.value)
  {
    match Strip(line, RouterPrefix)
    case Some(rest) => if AllDigits(rest) then Some(rest) else None
    case None => None
  }

  /** `/\A\snetwork\s([\h\.\/:]+)\Z/` and its capture, the prefix. */
  function NetworkOf(line: string): (r: Option<string>)
    ensures r.Some? ==> IsPrefix(r.value)
  {
    match Strip(line, NetworkPrefix)
    case Some(rest) => if IsPrefix(rest) then Some(rest) else None
    case None => None
  }

  /** A line that starts with a word character is not a network line. */
  lemma TopLevelIsNotNetwork(line: string)
    requires IsTopLevel(line)
    ensures NetworkOf(line).None?
  {
    assert !IsSpace(line[0]);
  }

  lemma SpellRouterPrefix()
    ensures Spell(RouterPrefix) == "router bgp "
  {
    SpellCons(Lit("router"), [Sp, Lit("bgp"), Sp]);
    SpellCons(Sp, [Lit("bgp"), Sp]);
    SpellCons(Lit("bgp"), [Sp]);
    SpellCons(Sp, []);
  }

  lemma SpellNetworkPrefix()
    ensures Spell(NetworkPrefix) == " network "
  {
    SpellCons(Sp, [Lit("network"), Sp]);
    SpellCons(Lit("network"), [Sp]);
    SpellCons(Sp, []);
  }

  /** The header `router bgp AS` is read back as its AS number. */
  lemma RouterAsOf(asn: string)
    requires AllDigits(asn)
    ensures RouterAs("router bgp " + asn) == Some(asn)
  {
    SpellRouterPrefix();
    StripSpell(RouterPrefix, asn);
  }

  /** The line ` network P` is read back as its prefix. */
  lemma NetworkOfLine(p: string)
    requires IsPrefix(p)
    ensures NetworkOf(" network " + p) == Some(p)
  {
    SpellNetworkPrefix();
    StripSpell(NetworkPrefix, p);
  }

  // ---------------------------------------------------------------------
  // `self.instances`.

  /** What one line does to the scan: emit records and go on, or stop (`break`). */
  datatype Step = Go(emitted: seq<Network>, asn: string, found: bool) | Stop

  /**
   * One line of the loop: a block header sets the AS and marks the block as
   * found; a network line emits `"AS P"`; once a block has been found, any
   * other line that starts with a word character stops the loop.
   */
  function StepLine(line: string, asn: string, found: bool): Step {
    match RouterAs(line)
    case Some(a) => Go([], a, true)
    case None =>
      match NetworkOf(line)
      case Some(p) => Go([Network(asn + " " + p, EnsurePresent)], asn, found)
      case None => if IsTopLevel(line) && found then Stop else Go([], asn, found)
  }

  /** The records the rest of the scan emits, given the current AS and `found_config`. */
  function Scan(lines: seq<string>, asn: string, found: bool): seq<Network>
    decreases |lines|
  {
    if lines == [] then []
    else match StepLine(lines[0], asn, found)
      case Stop => []
      case Go(emitted, a, f) => emitted + Scan(lines[1..], a, f)
  }

  /** The records `instances` builds from the lines of `show running-config`. */
  function Parse(config: seq<string>): seq<Network> {
    Scan(config, "", false)
  }

  /** `self.instances`: one pass over the lines, threading `as` and `found_config`. */
  method Instances(config: seq<string>) returns (providers: seq<Network>)
    ensures providers == Parse(config)
  {
    providers := [];
    var asn := "";
    var found := false;
    var i := 0;
    assert config[i..] == config;
    while i < |config|
      invariant 0 <= i <= |config|
      invariant providers + Scan(config[i..], asn, found) == Parse(config)
    {
      var line := config[i];
      ghost var step := StepLine(line, asn, found);
      ghost var before := providers;
      assert Scan(config[i..], asn, found) == (if step.Stop? then [] else step.emitted + Scan(config[i + 1..], step.asn, step.found));
      var header := RouterAs(line);
      var network := NetworkOf(line);
      if header.Some? {
        asn := header.value;
        found := true;
      } else if network.Some? {
        providers := providers + [Network(asn + " " + network.value, EnsurePresent)];
      } else if IsTopLevel(line) && found {
        assert providers + [] == providers;
        break;
      }
      assert step.Go? && providers == before + step.emitted && asn == step.asn && found == step.found;
      Associative(before, step.emitted, Scan(config[i + 1..], asn, found));
      assert providers + Scan(config[i + 1..], asn, found) == Parse(config);
      i := i + 1;
    }
  }

  // ---------------------------------------------------------------------
  // `@resource[:name].split(/\s+/)`.

  /** No character of `s` is `\s`. */
  predicate NoSpace(s: string) {
    forall i :: 0 <= i < |s| ==> !IsSpace(s[i])
  }

  /** One or more `\s` characters. */
  predicate Blanks(s: string) {
    |s| > 0 && forall i :: 0 <= i < |s| ==> IsSpace(s[i])
  }

  /** The longest prefix of `s` without `\s`: the first field of the split. */
  function Field(s: string): (f: string)
    ensures f <= s && NoSpace(f)
    ensures |f| == |s| || IsSpace(s[|f|])
  {
    if |s| > 0 && !IsSpace(s[0]) then [s[0]] + Field(s[1..]) else ""
  }

  /**
   * `as, network = name.split(/\s+/)`: the first field (empty when the name
   * starts with white space) and the second. With fewer than two fields
   * `network` is `nil` and `network.include?(':')` raises.
   */
  function SplitName(name: string): Result<(string, string)> {
    var asn := Field(name);
    var network := Field(SkipSpaces(name[|asn|..]));
    if network == "" then Err("undefined method `include?' for nil:NilClass")
    else Ok((asn, network))
  }

  lemma {:induction false} FieldPrefix(f: string, s: string)
    requires NoSpace(f) && (|s| == 0 || IsSpace(s[0]))
    ensures Field(f + s) == f
  {
    if |f| == 0 {
      assert f + s == s;
    } else {
      assert (f + s)[0] == f[0] && (f + s)[1..] == f[1..] + s;
      FieldPrefix(f[1..], s);
      assert [f[0]] + f[1..] == f;
    }
  }

  lemma {:induction false} SkipBlanks(sep: string, t: string)
    requires forall i :: 0 <= i < |sep| ==> IsSpace(sep[i])
    requires |t| == 0 || !IsSpace(t[0])
    ensures SkipSpaces(sep + t) == t
  {
    if |sep| == 0 {
      assert sep + t == t;
    } else {
      assert (sep + t)[0] == sep[0] && (sep + t)[1..] == sep[1..] + t;
      SkipBlanks(sep[1..], t);
    }
  }

  /**
   * A name made of a field, a run of white space, a second field and
   * anything that starts with white space splits into the two fields.
   */
  lemma SplitNameOf(asn: string, sep: string, network: string, tail: string)
    requires NoSpace(asn) && Blanks(sep) && NoSpace(network) && network != ""
    requires |tail| == 0 || IsSpace(tail[0])
    ensures SplitName(asn + sep + network + tail) == Ok((asn, network))
  {
    var name := asn + sep + network + tail;
    var rest := sep + (network + tail);
    assert name == asn + rest;
    FieldPrefix(asn, rest);
    assert name[|asn|..] == rest;
    assert !IsSpace(network[0]);
    SkipBlanks(sep, network + tail);
    FieldPrefix(network, tail);
  }

  /** `s` is its first field followed by nothing or by white space. */
  lemma FieldSplit(s: string)
    ensures s == Field(s) + s[|Field(s)|..]
    ensures |s[|Field(s)|..]| == 0 || IsSpace(s[|Field(s)|..][0])
  {
  }

  /** `s` is a run of white space followed by what `SkipSpaces` leaves. */
  lemma SkipSplit(s: string) returns (sep: string)
    ensures s == sep + SkipSpaces(s) && |sep| == |s| - |SkipSpaces(s)|
    ensures forall i :: 0 <= i < |sep| ==> IsSpace(sep[i])
  {
    var after := SkipSpaces(s);
    sep := s[..|s| - |after|];
    assert s == sep + after;
  }

  /** White space at the front is skipped. */
  lemma SkipShrinks(s: string)
    requires |s| > 0 && IsSpace(s[0])
    ensures |SkipSpaces(s)| < |s|
  {
    assert SkipSpaces(s) == SkipSpaces(s[1..]);
  }

  lemma Concat4(a: string, b: string, c: string, d: string)
    ensures a + (b + (c + d)) == a + b + c + d
  {
  }

  /** Conversely, a name that splits has that shape. */
  lemma SplitNameShape(name: string) returns (sep: string, tail: string)
    requires SplitName(name).Ok?
    ensures var (asn, network) := SplitName(name).value;
      && NoSpace(asn) && Blanks(sep) && NoSpace(network) && network != ""
      && (|tail| == 0 || IsSpace(tail[0]))
      && name == asn + sep + network + tail
  {
    var asn := Field(name);
    var rest := name[|asn|..];
    FieldSplit(name);
    var after := SkipSpaces(rest);
    sep := SkipSplit(rest);
    var network := Field(after);
    assert SplitName(name) == Ok((asn, network));
    FieldSplit(after);
    tail := after[|network|..];
    assert |rest| > 0 && IsSpace(rest[0]);
    SkipShrinks(rest);
    Concat4(asn, sep, network, tail);
  }

  /** A name the scanner builds splits, in `create`, back into its AS and prefix. */
  lemma SplitScannedName(asn: string, p: string)
    requires asn == "" || AllDigits(asn)
    requires IsPrefix(p)
    ensures SplitName(asn + " " + p) == Ok((asn, p))
  {
    assert NoSpace(asn) by {
      forall i | 0 <= i < |asn|
        ensures !IsSpace(asn[i])
      {
        assert IsDigit(asn[i]);
      }
    }
    assert NoSpace(p) by {
      forall i | 0 <= i < |p|
        ensures !IsSpace(p[i])
      {
        assert IsPrefixChar(p[i]);
      }
    }
    SplitNameOf(asn, " ", p, "");
    assert asn + " " + p + "" == asn + " " + p;
  }

  // ---------------------------------------------------------------------
  // What the scanner promises.

  /**
   * A record as the scanner builds it: present, and named `"AS P"` with AS
   * the numeral of the block header (empty before any header) and P a prefix,
   * so that `create` and `destroy` split the name back into AS and P.
   */
  predicate IsRecord(r: Network) {
    && r.ensure == EnsurePresent
    && match SplitName(r.name)
       case Err(_) => false
       case Ok((asn, p)) => (asn == "" || AllDigits(asn)) && IsPrefix(p) && r.name == asn + " " + p
  }

  predicate AllRecords(rs: seq<Network>) {
    forall k :: 0 <= k < |rs| ==> IsRecord(rs[k])
  }

  lemma AllRecordsConcat(a: seq<Network>, b: seq<Network>)
    requires AllRecords(a) && AllRecords(b)
    ensures AllRecords(a + b)
  {
    forall k | 0 <= k < |a + b|
      ensures IsRecord((a + b)[k])
    {
      if k >= |a| {
        assert (a + b)[k] == b[k - |a|];
      }
    }
  }

  /** The records one line emits are records as the scanner builds them. */
  lemma StepRecords(line: string, asn: string, found: bool)
    requires asn == "" || AllDigits(asn)
    ensures StepLine(line, asn, found).Go? ==>
      var step := StepLine(line, asn, found);
      (step.asn == "" || AllDigits(step.asn)) && AllRecords(step.emitted)
  {
    if RouterAs(line).None? && NetworkOf(line).Some? {
      SplitScannedName(asn, NetworkOf(line).value);
    }
  }

  lemma {:induction false} ScanRecords(lines: seq<string>, asn: string, found: bool)
    requires asn == "" || AllDigits(asn)
    ensures AllRecords(Scan(lines, asn, found))
    decreases |lines|
  {
    if lines != [] {
      StepRecords(lines[0], asn, found);
      match StepLine(lines[0], asn, found)
      case Stop =>
      case Go(emitted, a, f) =>
        ScanRecords(lines[1..], a, f);
        AllRecordsConcat(emitted, Scan(lines[1..], a, f));
    }
  }

  /** Every parsed record is present and its name splits into an AS and a prefix. */
  lemma ParseRecords(config: seq<string>)
    ensures forall k :: 0 <= k < |Parse(config)| ==> IsRecord(Parse(config)[k])
  {
    ScanRecords(config, "", false);
  }

  /** At most one record per line. */
  lemma {:induction false} ScanLength(lines: seq<string>, asn: string, found: bool)
    ensures |Scan(lines, asn, found)| <= |lines|
    decreases |lines|
  {
    if lines != [] {
      match StepLine(lines[0], asn, found)
      case Stop =>
      case Go(emitted, a, f) =>
        ScanLength(lines[1..], a, f);
    }
  }

  /** A line that opens with white space is not a block header. */
  lemma BlankIsNotHeader(line: string)
    requires |line| > 0 && IsSpace(line[0])
    ensures RouterAs(line).None?
  {
    assert RouterPrefix[0] == Lit("router");
    assert !("router" <= line) by {
      assert "router"[0] != line[0];
    }
  }

  /** `router bgp AS` opens the block of AS. */
  lemma StepHeader(asn: string, current: string, found: bool)
    requires AllDigits(asn)
    ensures StepLine("router bgp " + asn, current, found) == Go([], asn, true)
  {
    RouterAsOf(asn);
  }

  /** ` network P` emits `"AS P"` for the current AS. */
  lemma StepNetwork(p: string, asn: string, found: bool)
    requires IsPrefix(p)
    ensures StepLine(" network " + p, asn, found) == Go([Network(asn + " " + p, EnsurePresent)], asn, found)
  {
    NetworkOfLine(p);
    BlankIsNotHeader(" network " + p);
  }

  // ---------------------------------------------------------------------
  // The scripts.

  /** `network P`, or `ipv6 bgp network P` for a prefix with a colon. */
  function NetworkLine(p: string): string {
    if Contains(p, ':') then "ipv6 bgp network " + p else "network " + p
  }

  /** `no network P`, or `no ipv6 bgp network P` for a prefix with a colon. */
  function NoNetworkLine(p: string): string {
    if Contains(p, ':') then "no ipv6 bgp network " + p else "no network " + p
  }

  /** The body of `create`'s script. */
  function CreateBody(asn: string, p: string): seq<string> {
    ["router bgp " + asn, NetworkLine(p)]
  }

  /** The body of `destroy`'s script. */
  function DestroyBody(asn: string, p: string): seq<string> {
    ["router bgp " + asn, NoNetworkLine(p)]
  }

  /** `destroy` undoes `create`: the same block, and the network line negated. */
  lemma DestroyUndoesCreate(asn: string, p: string)
    ensures |CreateBody(asn, p)| == |DestroyBody(asn, p)| == 2
    ensures DestroyBody(asn, p)[0] == CreateBody(asn, p)[0]
    ensures DestroyBody(asn, p)[1] == "no " + CreateBody(asn, p)[1]
  {
    if Contains(p, ':') {
      assert "no " + "ipv6 bgp network " == "no ipv6 bgp network ";
      Associative("no ", "ipv6 bgp network ", p);
    } else {
      assert "no " + "network " == "no network ";
      Associative("no ", "network ", p);
    }
  }

  /**
   * The IPv4 lines `create` writes, as `show running-config` prints them
   * back (the network line indented by one blank), are parsed as the
   * record the resource names, its white space run made one blank.
   */
  lemma CreateReadBack(name: string)
    requires SplitName(name).Ok?
    requires AllDigits(SplitName(name).value.0) && IsPrefix(SplitName(name).value.1)
    requires !Contains(SplitName(name).value.1, ':')
    ensures var (asn, p) := SplitName(name).value;
      Parse([CreateBody(asn, p)[0], " " + CreateBody(asn, p)[1]]) == [Network(asn + " " + p, EnsurePresent)]
  {
    var (asn, p) := SplitName(name).value;
    var header := "router bgp " + asn;
    var line := " " + ("network " + p);
    assert " " + "network " == " network ";
    Associative(" ", "network ", p);
    StepHeader(asn, "", false);
    StepNetwork(p, asn, true);
    var lines := [header, line];
    assert lines[0] == header && lines[1..] == [line];
    assert Scan(lines, "", false) == Scan([line], asn, true);
    assert [line][1..] == [];
    assert Scan([line], asn, true) == [Network(asn + " " + p, EnsurePresent)] + Scan([], asn, true);
  }

  /**
   * One `quagga_bgp_network` provider: its property hash and the name of
   * the resource it manages (`@resource[:name]`).
   */
  class Provider {
    const resourceName: string
    var name: Option<string>
    var ensure: Option<Ensure>

    /** `new(hash)` for a parsed record, then attached to its resource by `prefetch`. */
    constructor FromRecord(r: Network, resourceName: string)
      ensures name == Some(r.name) && ensure == Some(r.ensure) && this.resourceName == resourceName
      ensures Exists() <==> r.ensure == EnsurePresent
    {
      this.resourceName := resourceName;
      name := Some(r.name);
      ensure := Some(r.ensure);
    }

    /** A provider for a resource no parsed record matched: its property hash is empty. */
    constructor Unmatched(resourceName: string)
      ensures name == None && ensure == None && this.resourceName == resourceName
      ensures !Exists()
    {
      this.resourceName := resourceName;
      name := None;
      ensure := None;
    }

    /** `exists?`. */
    predicate Exists()
      reads this
    {
      ensure == Some(EnsurePresent)
    }

    /**
     * `create`: announce the network named by the resource, then record it
     * as present. A name with fewer than two fields raises before anything
     * is sent.
     */
    method Create() returns (outcome: Result<seq<string>>)
      modifies this`name, this`ensure
      ensures SplitName(resourceName).Err? ==> outcome.Err? && name == old(name) && ensure == old(ensure)
      ensures SplitName(resourceName).Ok? ==>
        && outcome == Ok(Session(CreateBody(SplitName(resourceName).value.0, SplitName(resourceName).value.1)))
        && name == Some(resourceName) && ensure == Some(EnsurePresent) && Exists()
    {
      var split := SplitName(resourceName);
      if split.Err? {
        return Err(split.message);
      }
      var (asn, network) := split.value;
      var cmds: seq<string> := [];
      cmds := cmds + ["configure terminal"];
      cmds := cmds + ["router bgp " + asn];
      if Contains(network, ':') {
        cmds := cmds + ["ipv6 bgp network " + network];
      } else {
        cmds := cmds + ["network " + network];
      }
      cmds := cmds + ["end"];
      cmds := cmds + ["write memory"];
      assert cmds == ["configure terminal"] + CreateBody(asn, network) + ["end", "write memory"];
      outcome := Ok(cmds);
      name := Some(resourceName);
      ensure := Some(EnsurePresent);
    }

    /**
     * `destroy`: withdraw the network named by the property hash, then clear
     * the hash. An empty hash (`nil.split`) or a name with fewer than two
     * fields raises before anything is sent.
     */
    method Destroy() returns (outcome: Result<seq<string>>)
      modifies this`name, this`ensure
      ensures old(name).None? ==> outcome.Err? && name == old(name) && ensure == old(ensure)
      ensures old(name).Some? && SplitName(old(name).value).Err? ==>
        outcome.Err? && name == old(name) && ensure == old(ensure)
      ensures old(name).Some? && SplitName(old(name).value).Ok? ==>
        && outcome == Ok(Session(DestroyBody(SplitName(old(name).value).value.0, SplitName(old(name).value).value.1)))
        && name == None && ensure == None && !Exists()
    {
      if name.None? {
        return Err("undefined method `split' for nil:NilClass");
      }
      var split := SplitName(name.value);
      if split.Err? {
        return Err(split.message);
      }
      var (asn, network) := split.value;
      var cmds: seq<string> := [];
      cmds := cmds + ["configure terminal"];
      cmds := cmds + ["router bgp " + asn];
      if Contains(network, ':') {
        cmds := cmds + ["no ipv6 bgp network " + network];
      } else {
        cmds := cmds + ["no network " + network];
      }
      cmds := cmds + ["end"];
      cmds := cmds + ["write memory"];
      assert cmds == ["configure terminal"] + DestroyBody(asn, network) + ["end", "write memory"];
      outcome := Ok(cmds);
      name := None;
      ensure := None;
    }
  }

  /**
   * `self.prefetch`: a resource gets a parsed record exactly when one is
   * named after it, and then the first such.
   */
  function PrefetchRecords(records: seq<Network>, resources: set<string>): (m: map<string, Network>)
    ensures forall n :: n in m <==> n in resources && exists k :: 0 <= k < |records| && records[k].name == n
    ensures forall n :: n in m ==> m[n].name == n && exists k ::
      0 <= k < |records| && records[k] == m[n] && forall j :: 0 <= j < k ==> records[j].name != n
  {
    Prefetch.Pick(records, (r: Network) => r.name, resources)
  }

  // ---------------------------------------------------------------------
  // Examples.

  /** A block with an IPv4 and an IPv6 network, closed by the next top-level line. */
  lemma ExampleBlock()
    ensures Parse(["router bgp 65000", " network 192.168.1.0/24", " network 2a04:6d40::/48", "line vty", " network 10.0.0.0/8"])
         == [Network("65000 192.168.1.0/24", EnsurePresent), Network("65000 2a04:6d40::/48", EnsurePresent)]
  {
    var l4 := ["line vty", " network 10.0.0.0/8"];
    var l3 := [" network 2a04:6d40::/48"] + l4;
    var l2 := [" network 192.168.1.0/24"] + l3;
    var l1 := ["router bgp 65000"] + l2;
    assert l1 == ["router bgp 65000", " network 192.168.1.0/24", " network 2a04:6d40::/48", "line vty", " network 10.0.0.0/8"];
    ExampleHeader();
    ExampleNetwork4();
    ExampleNetwork6();
    ExampleStop();
    assert l1[0] == "router bgp 65000" && l1[1..] == l2;
    assert Scan(l1, "", false) == Scan(l2, "65000", true);
    assert l2[1..] == l3;
    assert Scan(l2, "65000", true) == [Network("65000 192.168.1.0/24", EnsurePresent)] + Scan(l3, "65000", true);
    assert l3[1..] == l4;
    assert Scan(l3, "65000", true) == [Network("65000 2a04:6d40::/48", EnsurePresent)] + Scan(l4, "65000", true);
    assert Scan(l4, "65000", true) == [];
  }

  lemma ExampleHeader()
    ensures StepLine("router bgp 65000", "", false) == Go([], "65000", true)
  {
    assert AllDigits("65000");
    StepHeader("65000", "", false);
    assert "router bgp " + "65000" == "router bgp 65000";
  }

  lemma ExampleNetwork4()
    ensures StepLine(" network 192.168.1.0/24", "65000", true)
         == Go([Network("65000 192.168.1.0/24", EnsurePresent)], "65000", true)
  {
    var p := "192.168.1.0/24";
    assert IsPrefix(p);
    StepNetwork(p, "65000", true);
    ExampleLines4();
  }

  lemma ExampleLines4()
    ensures " network " + "192.168.1.0/24" == " network 192.168.1.0/24"
    ensures "65000" + " " + "192.168.1.0/24" == "65000 192.168.1.0/24"
  {
    assert "65000" + " " == "65000 ";
  }

  lemma ExampleNetwork6()
    ensures StepLine(" network 2a04:6d40::/48", "65000", true)
         == Go([Network("65000 2a04:6d40::/48", EnsurePresent)], "65000", true)
  {
    var p := "2a04:6d40::/48";
    assert IsPrefix(p);
    StepNetwork(p, "65000", true);
    ExampleLines6();
  }

  lemma ExampleLines6()
    ensures " network " + "2a04:6d40::/48" == " network 2a04:6d40::/48"
    ensures "65000" + " " + "2a04:6d40::/48" == "65000 2a04:6d40::/48"
  {
    assert "65000" + " " == "65000 ";
  }

  lemma ExampleStop()
    ensures StepLine("line vty", "65000", true) == Stop
  {
    var line := "line vty";
    assert RouterPrefix[0] == Lit("router");
    assert !("router" <= line) by {
      assert line[1] != "router"[1];
    }
    TopLevelIsNotNetwork(line);
  }

  /** `65000   2a04:6d40::/48`: the repeated blanks are one separator. */
  lemma ExampleSplitIpv6()
    ensures SplitName("65000   2a04:6d40::/48") == Ok(("65000", "2a04:6d40::/48"))
  {
    var p := "2a04:6d40::/48";
    assert NoSpace("65000") && Blanks("   ") && NoSpace(p);
    SplitNameOf("65000", "   ", p, "");
    ExampleName6();
  }

  lemma ExampleName6()
    ensures "65000" + "   " + "2a04:6d40::/48" + "" == "65000   2a04:6d40::/48"
  {
    assert "65000" + "   " == "65000   ";
    assert "65000   " + "2a04:6d40::/48" == "65000   2a04:6d40::/48";
  }

  /** A prefix with a colon is announced with `ipv6 bgp network`. */
  lemma ExampleCreateIpv6()
    ensures CreateBody("65000", "2a04:6d40::/48") == ["router bgp 65000", "ipv6 bgp network 2a04:6d40::/48"]
  {
    var p := "2a04:6d40::/48";
    assert p[4] == ':';
    assert "router bgp " + "65000" == "router bgp 65000";
    assert "ipv6 bgp network " + p == "ipv6 bgp network 2a04:6d40::/48";
  }

  /** `192.168.1.0/24` alone has one field only: `create` raises. */
  lemma ExampleCreateOneField()
    ensures SplitName("192.168.1.0/24").Err?
  {
    var name := "192.168.1.0/24";
    assert NoSpace(name);
    FieldPrefix(name, "");
    assert name + "" == name;
  }
}
