/**
 * `self.instances` of the interface provider: a single pass over the lines of
 * `show running-config` that builds one record per `interface NAME` block,
 * filling each record's properties from the lines the schema recognises.
 */
module InterfaceScan {
  import opened Common
  import opened Text
  import opened InterfaceSchema
  import Prefetch

  /** One interface as `self.instances` hands it to `new`: its property hash. */
  datatype Interface = Interface(name: string, ensure: Ensure, enable: bool, properties: map<Prop, Value>)

  const AllProps: set<Prop> := {Description, IpAddress, Bandwidth, LinkDetect}

  /**
   * The shape of every record the scanner builds: each schema property is
   * set to a value of its own type, `ip_address` to a list.
   */
  predicate Shaped(props: map<Prop, Value>) {
    && props.Keys == AllProps
    && (forall p :: p in props ==> Admissible(p, props[p]))
    && props[IpAddress].List?
    && props[LinkDetect].Flag?
  }

  /** `[\w\d\.]`: a character of an interface name. */
  predicate IsNameChar(c: char) {
    IsWordChar(c) || c == '.'
  }

  predicate IsInterfaceName(n: string) {
    |n| > 0 && forall i :: 0 <= i < |n| ==> IsNameChar(n[i])
  }

  const HeaderPattern: seq<Tok> := [Lit("interface"), Sp]

  /** `/\Ainterface\s([\w\d\.]+)\Z/`: the name a block header opens, if `line` is one. */
  function HeaderName(line: string): (n: Option<string>)
    ensures n.Some? ==> IsInterfaceName(n.value)
  {
    match Strip(line, HeaderPattern)
    case Some(rest) => if IsInterfaceName(rest) then Some(rest) else None
    case None => None
  }

  /** `/\A\sshutdown\Z/`. */
  predicate IsShutdown(line: string) {
    Strip(line, [Sp, Lit("shutdown")]) == Some("")
  }

  /**
   * The record an `interface NAME` header opens: present, enabled, and every
   * schema property at its default (a fresh empty list for `ip_address`).
   */
  function Fresh(name: string): (r: Interface)
    ensures r.name == name && r.ensure == EnsurePresent && r.enable
    ensures r.properties == map[Description := Absent, IpAddress := List([]), Bandwidth := Absent, LinkDetect := Flag(false)]
    ensures Shaped(r.properties)
  {
    Interface(name, EnsurePresent, true, map p | p in Schema :: Default(p))
  }

  /** The first property of `ps` whose pattern matches `line`, with its capture. */
  function FirstMatch(ps: seq<Prop>, line: string): (m: Option<(Prop, Option<string>)>)
    ensures m.Some? ==> m.value.0 in ps && Match(m.value.0, line) == Some(m.value.1)
    ensures m.None? ==> forall p :: p in ps ==> Match(p, line).None?
  {
    if ps == [] then None
    else match Match(ps[0], line)
      case Some(cap) => Some((ps[0], cap))
      case None => FirstMatch(ps[1..], line)
  }

  /**
   * Records the capture of a matched line: no capture sets `:true`; otherwise
   * an array appends, a fixnum stores `to_i`, a boolean sets `:true` and a
   * string replaces the value.
   */
  function Store(props: map<Prop, Value>, p: Prop, cap: Option<string>): (r: map<Prop, Value>)
    requires Shaped(props)
    requires cap.None? ==> p == LinkDetect
    ensures Shaped(r)
    ensures forall q :: q in props && q != p ==> r[q] == props[q]
  {
    if cap.None? then props[p := Flag(true)]
    else match KindOf(p)
      case ArrayKind => props[p := List(props[p].items + [cap.value])]
      case FixnumKind => props[p := Number(ToI(cap.value))]
      case BooleanKind => props[p := Flag(true)]
      case StringKind => props[p := Str(cap.value)]
  }

  /**
   * The effect of one line inside an interface block: ` shutdown` disables
   * the interface; otherwise the first descriptor, in schema order, whose
   * pattern matches records its capture; a line no descriptor matches is
   * ignored.
   */
  function ApplyLine(r: Interface, line: string): (u: Interface)
    requires Shaped(r.properties)
    ensures Shaped(u.properties) && u.name == r.name && u.ensure == r.ensure
  {
    if IsShutdown(line) then r.(enable := false)
    else match FirstMatch(Schema, line)
      case None => r
      case Some((p, cap)) => r.(properties := Store(r.properties, p, cap))
  }

  /** What every record the scanner opens satisfies. */
  predicate ValidRecord(r: Interface) {
    r.ensure == EnsurePresent && IsInterfaceName(r.name) && Shaped(r.properties)
  }

  /** The scanner's state: `found_interface` implies an open record. */
  predicate ScanState(found: bool, current: Option<Interface>) {
    && (found ==> current.Some?)
    && (current.Some? ==> ValidRecord(current.value))
  }

  /**
   * One line of the scan: the records it completes, and the new
   * `found_interface` flag and record under construction.
   */
  function Step(line: string, found: bool, current: Option<Interface>): (r: (seq<Interface>, bool, Option<Interface>))
    requires ScanState(found, current)
    ensures ScanState(r.1, r.2)
  {
    if line == "!" then ([], found, current)
    else if HeaderName(line).Some? then (Pending(current), true, Some(Fresh(HeaderName(line).value)))
    else if IsTopLevel(line) && found then ([], false, current)
    else if found then ([], true, Some(ApplyLine(current.value, line)))
    else ([], found, current)
  }

  /**
   * The records the rest of the scan emits, given `found_interface` and the
   * record being built (`None` for the empty hash before the first header).
   */
  function Scan(lines: seq<string>, found: bool, current: Option<Interface>): seq<Interface>
    requires ScanState(found, current)
    decreases |lines|
  {
    if lines == [] then Pending(current)
    else
      var step := Step(lines[0], found, current);
      step.0 + Scan(lines[1..], step.1, step.2)
  }

  /** The records `self.instances` builds from the running configuration. */
  function Parse(config: seq<string>): seq<Interface> {
    Scan(config, false, None)
  }

  /** The inner `@resource_map.each` loop over one property line. */
  method ApplyPropertyLine(r: Interface, line: string) returns (updated: Interface)
    requires Shaped(r.properties)
    ensures updated == ApplyLine(r, line)
  {
    updated := r;
    var k := 0;
    while k < |Schema|
      invariant 0 <= k <= |Schema|
      invariant IsShutdown(line) ==> updated == if k == 0 then r else r.(enable := false)
      invariant !IsShutdown(line) ==> updated == r && FirstMatch(Schema, line) == FirstMatch(Schema[k..], line)
    {
      var p := Schema[k];
      if IsShutdown(line) {
        updated := updated.(enable := false);
      } else {
        assert Schema[k..][0] == p && Schema[k..][1..] == Schema[k + 1..];
        var m := Match(p, line);
        if m.Some? {
          updated := updated.(properties := Store(updated.properties, p, m.value));
          break;
        }
      }
      k := k + 1;
    }
  }

  /** The scan from line `i` is that line's step followed by the scan from line `i + 1`. */
  lemma ScanFrom(config: seq<string>, i: int, found: bool, current: Option<Interface>)
    requires 0 <= i < |config| && ScanState(found, current)
    ensures var step := Step(config[i], found, current);
      Scan(config[i..], found, current) == step.0 + Scan(config[i + 1..], step.1, step.2)
  {
    assert config[i..][0] == config[i] && config[i..][1..] == config[i + 1..];
  }

  /** `self.instances`, less the `vtysh` call that produces `config`. */
  method Instances(config: seq<string>) returns (interfaces: seq<Interface>)
    ensures interfaces == Parse(config)
  {
    interfaces := [];
    var found := false;
    var current: Option<Interface> := None;
    var i := 0;
    assert config[i..] == config;
    while i < |config|
      invariant 0 <= i <= |config|
      invariant ScanState(found, current)
      invariant interfaces + Scan(config[i..], found, current) == Parse(config)
    {
      var line := config[i];
      ghost var step := Step(line, found, current);
      ghost var before := interfaces;
      ScanFrom(config, i, found, current);
      if line == "!" {
        // a comment line
      } else if HeaderName(line).Some? {
        var name := HeaderName(line).value;
        found := true;
        interfaces := interfaces + Pending(current);
        current := Some(Fresh(name));
      } else if IsTopLevel(line) && found {
        found := false;
      } else if found {
        var updated := ApplyPropertyLine(current.value, line);
        current := Some(updated);
      }
      assert (interfaces, found, current) == (before + step.0, step.1, step.2) by {
        assert before + [] == before;
      }
      Associative(before, step.0, Scan(config[i + 1..], found, current));
      i := i + 1;
    }
    interfaces := interfaces + Pending(current);
  }

  /** The names of the `interface NAME` headers among `lines`, in order. */
  function Headers(lines: seq<string>): (hs: seq<string>)
    ensures |hs| <= |lines|
  {
    if lines == [] then []
    else (if HeaderName(lines[0]).Some? then [HeaderName(lines[0]).value] else []) + Headers(lines[1..])
  }

  function Names(rs: seq<Interface>): (ns: seq<string>)
    ensures |ns| == |rs| && forall i :: 0 <= i < |rs| ==> ns[i] == rs[i].name
  {
    if rs == [] then [] else [rs[0].name] + Names(rs[1..])
  }

  lemma {:induction false} NamesConcat(a: seq<Interface>, b: seq<Interface>)
    ensures Names(a + b) == Names(a) + Names(b)
  {
    assert |Names(a + b)| == |Names(a) + Names(b)|;
    forall i | 0 <= i < |a + b|
      ensures Names(a + b)[i] == (Names(a) + Names(b))[i]
    {
      if i >= |a| {
        assert (a + b)[i] == b[i - |a|];
      }
    }
  }

  /** The header names one line contributes: its own, if it is a header. */
  function HeaderNames(line: string): seq<string> {
    if HeaderName(line).Some? then [HeaderName(line).value] else []
  }

  /**
   * One step keeps the names of what it emits and what it leaves open equal
   * to what was open before and the line's own header name.
   */
  lemma StepNames(line: string, found: bool, current: Option<Interface>)
    requires ScanState(found, current)
    ensures var step := Step(line, found, current);
      Names(step.0) + Names(Pending(step.2)) == Names(Pending(current)) + HeaderNames(line)
  {
    var step := Step(line, found, current);
    if HeaderName(line).Some? {
      assert Names(Pending(step.2)) == [HeaderName(line).value];
    } else {
      assert step.0 == [];
      assert Names(Pending(step.2)) == Names(Pending(current));
    }
  }

  /**
   * The scan emits the open record (if any) and then one record per header,
   * named after it, in order.
   */
  lemma {:induction false} ScanNames(lines: seq<string>, found: bool, current: Option<Interface>)
    requires ScanState(found, current)
    ensures Names(Scan(lines, found, current)) == Names(Pending(current)) + Headers(lines)
    decreases |lines|
  {
    if lines == [] {
      assert Names(Pending(current)) + [] == Names(Pending(current));
    } else {
      var step := Step(lines[0], found, current);
      var rest := Scan(lines[1..], step.1, step.2);
      ScanNames(lines[1..], step.1, step.2);
      NamesConcat(step.0, rest);
      StepNames(lines[0], found, current);
      var emitted := Names(step.0);
      var open := Names(Pending(step.2));
      var later := Headers(lines[1..]);
      assert Names(Scan(lines, found, current)) == emitted + (open + later);
      assert Headers(lines) == HeaderNames(lines[0]) + later;
      Associative(emitted, open, later);
      Associative(Names(Pending(current)), HeaderNames(lines[0]), later);
    }
  }

  /**
   * Each `interface NAME` header yields exactly one record, named NAME, in
   * header order; without headers nothing is emitted.
   */
  lemma ParseNames(config: seq<string>)
    ensures Names(Parse(config)) == Headers(config)
    ensures |Parse(config)| == |Headers(config)|
    ensures Headers(config) == [] <==> Parse(config) == []
  {
    ScanNames(config, false, None);
  }

  /** Every record the scan emits is present, well named and of the schema's shape. */
  lemma {:induction false} ScanValid(lines: seq<string>, found: bool, current: Option<Interface>)
    requires ScanState(found, current)
    ensures forall i :: 0 <= i < |Scan(lines, found, current)| ==> ValidRecord(Scan(lines, found, current)[i])
    decreases |lines|
  {
    if lines != [] {
      var step := Step(lines[0], found, current);
      ScanValid(lines[1..], step.1, step.2);
      var out := Scan(lines, found, current);
      assert out == step.0 + Scan(lines[1..], step.1, step.2);
      assert forall i :: 0 <= i < |step.0| ==> ValidRecord(step.0[i]);
    }
  }

  lemma ParseValid(config: seq<string>)
    ensures forall i :: 0 <= i < |Parse(config)| ==> ValidRecord(Parse(config)[i])
  {
    ScanValid(config, false, None);
  }

  /** A line no pattern can match: empty, or not opening with `\s` (such as `!`). */
  lemma Unindented(r: Interface, line: string)
    requires Shaped(r.properties)
    requires |line| == 0 || !IsSpace(line[0])
    ensures ApplyLine(r, line) == r
  {
    assert !IsShutdown(line);
    forall p | p in Schema
      ensures Match(p, line).None?
    {
      assert Pattern(p)[0] == Sp;
    }
  }

  /** No header, in a state outside every block: the line changes nothing. */
  lemma {:induction false} OutsideIgnored(pre: seq<string>, rest: seq<string>, current: Option<Interface>)
    requires ScanState(false, current)
    requires forall i :: 0 <= i < |pre| ==> HeaderName(pre[i]).None?
    ensures Scan(pre + rest, false, current) == Scan(rest, false, current)
    decreases |pre|
  {
    if pre == [] {
      assert pre + rest == rest;
    } else {
      assert (pre + rest)[0] == pre[0] && (pre + rest)[1..] == pre[1..] + rest;
      OutsideIgnored(pre[1..], rest, current);
    }
  }

  /**
   * The first top-level line of a block closes it: the lines that follow, up
   * to the next header, are not attributed to any record.
   */
  lemma BlockClosed(line: string, pre: seq<string>, rest: seq<string>, current: Option<Interface>)
    requires ScanState(true, current)
    requires IsTopLevel(line) && HeaderName(line).None?
    requires forall i :: 0 <= i < |pre| ==> HeaderName(pre[i]).None?
    ensures Scan([line] + pre + rest, true, current) == Scan(rest, false, current)
  {
    assert ([line] + pre + rest)[1..] == pre + rest;
    OutsideIgnored(pre, rest, current);
  }

  /** The effect of a sequence of lines inside one block. */
  function ApplyAll(r: Interface, body: seq<string>): (u: Interface)
    requires Shaped(r.properties)
    ensures Shaped(u.properties) && u.name == r.name && u.ensure == r.ensure
    decreases |body|
  {
    if body == [] then r else ApplyAll(ApplyLine(r, body[0]), body[1..])
  }

  lemma {:induction false} ApplyAllConcat(r: Interface, a: seq<string>, b: seq<string>)
    requires Shaped(r.properties)
    ensures ApplyAll(r, a + b) == ApplyAll(ApplyAll(r, a), b)
    decreases |a|
  {
    if a == [] {
      assert a + b == b;
    } else {
      assert (a + b)[0] == a[0] && (a + b)[1..] == a[1..] + b;
      ApplyAllConcat(ApplyLine(r, a[0]), a[1..], b);
    }
  }

  /** A line that neither opens nor closes a block. */
  predicate BodyLine(line: string) {
    HeaderName(line).None? && !IsTopLevel(line)
  }

  /** Inside a block, the body lines act on the open record one after the other. */
  lemma {:induction false} ScanBody(body: seq<string>, rest: seq<string>, r: Interface)
    requires ValidRecord(r)
    requires forall i :: 0 <= i < |body| ==> BodyLine(body[i])
    ensures Scan(body + rest, true, Some(r)) == Scan(rest, true, Some(ApplyAll(r, body)))
    decreases |body|
  {
    if body == [] {
      assert body + rest == rest;
    } else {
      var line := body[0];
      assert (body + rest)[0] == line && (body + rest)[1..] == body[1..] + rest;
      if line == "!" {
        Unindented(r, line);
      }
      ScanBody(body[1..], rest, ApplyLine(r, line));
    }
  }

  /** `interface NAME`, as `show running-config` prints a block header. */
  function HeaderLine(name: string): string {
    "interface " + name
  }

  lemma HeaderNameOfHeaderLine(name: string)
    requires IsInterfaceName(name)
    ensures HeaderName(HeaderLine(name)) == Some(name)
  {
    assert Spell(HeaderPattern) == "interface ";
    StripSpell(HeaderPattern, name);
  }

  /**
   * A header and its body: the record open before it is emitted, and a fresh
   * record for the header collects the body.
   */
  lemma HeaderBlock(name: string, body: seq<string>, rest: seq<string>, found: bool, current: Option<Interface>)
    requires ScanState(found, current) && IsInterfaceName(name)
    requires forall i :: 0 <= i < |body| ==> BodyLine(body[i])
    ensures Scan([HeaderLine(name)] + body + rest, found, current)
         == Pending(current) + Scan(rest, true, Some(ApplyAll(Fresh(name), body)))
  {
    HeaderNameOfHeaderLine(name);
    var lines := [HeaderLine(name)] + body + rest;
    assert lines[0] == HeaderLine(name) && lines[1..] == body + rest;
    ScanBody(body, rest, Fresh(name));
  }

  /**
   * The `break` after the first match loses nothing: the descriptor the
   * loop stops at is exactly the one whose pattern matches.
   */
  lemma FirstMatchIff(line: string, p: Prop, cap: Option<string>)
    ensures FirstMatch(Schema, line) == Some((p, cap)) <==> Match(p, line) == Some(cap)
  {
    var m := FirstMatch(Schema, line);
    if Match(p, line) == Some(cap) {
      assert p in Schema;
      var q := m.value.0;
      if q != p {
        MatchesDisjoint(p, q, line);
      }
    }
  }

  lemma ShutdownLetter(line: string)
    ensures IsShutdown(line) ==> |line| > 1 && line[1] == 's'
  {
    if IsShutdown(line) {
      StripHead(line, [Sp, Lit("shutdown")]);
    }
  }

  /** A matched line that is not ` shutdown` stores its capture in its own property. */
  lemma ApplyMatched(r: Interface, line: string, p: Prop, cap: Option<string>)
    requires Shaped(r.properties)
    requires Match(p, line) == Some(cap)
    ensures ApplyLine(r, line) == r.(properties := Store(r.properties, p, cap))
  {
    MatchedLetter(p, line);
    ShutdownLetter(line);
    FirstMatchIff(line, p, cap);
  }

  /**
   * The indented line each descriptor recognises updates only its property:
   * a description replaces the old one (the last occurrence wins), an address
   * is appended after the earlier ones, a bandwidth is stored as its integer
   * value and `link-detect` sets the flag.
   */
  lemma ApplyConfigLine(r: Interface, p: Prop, arg: string)
    requires Shaped(r.properties)
    requires p == Bandwidth ==> AllDigits(arg)
    requires p == LinkDetect ==> arg == ""
    ensures ApplyLine(r, ConfigLine(p, arg)).name == r.name
    ensures ApplyLine(r, ConfigLine(p, arg)).enable == r.enable
    ensures forall q :: q in r.properties && q != p ==>
      ApplyLine(r, ConfigLine(p, arg)).properties[q] == r.properties[q]
    ensures p == Description ==> ApplyLine(r, ConfigLine(p, arg)).properties[p] == Str(arg)
    ensures p == IpAddress ==> ApplyLine(r, ConfigLine(p, arg)).properties[p] == List(r.properties[p].items + [arg])
    ensures p == Bandwidth ==> ApplyLine(r, ConfigLine(p, arg)).properties[p] == Number(DigitsValue(arg))
    ensures p == LinkDetect ==> ApplyLine(r, ConfigLine(p, arg)).properties[p] == Flag(true)
  {
    var cap := if p == LinkDetect then None else Some(arg);
    MatchConfigLine(p, arg);
    ApplyMatched(r, ConfigLine(p, arg), p, cap);
    if p == Bandwidth {
      ToIOfDigits(arg);
    }
  }

  /** ` shutdown` disables the interface and changes nothing else. */
  lemma ApplyShutdown(r: Interface)
    requires Shaped(r.properties)
    ensures ApplyLine(r, " shutdown") == r.(enable := false)
  {
    SpellCons(Sp, [Lit("shutdown")]);
    SpellCons(Lit("shutdown"), []);
    StripSpell([Sp, Lit("shutdown")], "");
    assert Spell([Sp, Lit("shutdown")]) + "" == " shutdown";
  }

  /**
   * Each command a template renders, indented by one blank as the running
   * configuration prints it inside a block, is the line its descriptor
   * recognises.
   */
  lemma TemplateIndented(p: Prop, arg: string)
    requires p != LinkDetect
    ensures " " + Template(p, Some(arg)) == ConfigLine(p, arg)
    ensures " " + Template(LinkDetect, None) == ConfigLine(LinkDetect, "")
  {
    SpellLinkDetect();
    match p
    case Description => SpellDescription(arg);
    case IpAddress => SpellIpAddress(arg);
    case Bandwidth => SpellBandwidth(arg);
  }

  lemma SpellLinkDetect()
    ensures " " + Template(LinkDetect, None) == ConfigLine(LinkDetect, "")
  {
    SpellCons(Sp, [Lit("link-detect")]);
    SpellCons(Lit("link-detect"), []);
    assert Spell(Pattern(LinkDetect)) == " link-detect";
  }

  lemma SpellDescription(arg: string)
    ensures " " + Template(Description, Some(arg)) == ConfigLine(Description, arg)
  {
    SpellCons(Sp, [Lit("description"), Sp]);
    SpellCons(Lit("description"), [Sp]);
    SpellCons(Sp, []);
    assert Spell(Pattern(Description)) == " description ";
  }

  lemma SpellIpAddress(arg: string)
    ensures " " + Template(IpAddress, Some(arg)) == ConfigLine(IpAddress, arg)
  {
    SpellCons(Sp, [Lit("ip"), Sp, Lit("address"), Sp]);
    SpellCons(Lit("ip"), [Sp, Lit("address"), Sp]);
    SpellCons(Sp, [Lit("address"), Sp]);
    SpellCons(Lit("address"), [Sp]);
    SpellCons(Sp, []);
    assert Spell(Pattern(IpAddress)) == " ip address ";
    assert Template(IpAddress, Some(arg)) == "ip address " + arg;
    assert " " + ("ip address " + arg) == " ip address " + arg;
  }

  lemma SpellBandwidth(arg: string)
    ensures " " + Template(Bandwidth, Some(arg)) == ConfigLine(Bandwidth, arg)
  {
    SpellCons(Sp, [Lit("bandwidth"), Sp]);
    SpellCons(Lit("bandwidth"), [Sp]);
    SpellCons(Sp, []);
    assert Spell(Pattern(Bandwidth)) == " bandwidth ";
  }
}
