/**
 * The running configuration a set of interface records stands for: each
 * record printed as an `interface NAME` block with one indented line per
 * property that is set. Parsing that text gives the records back, which is
 * the round trip the interface scanner promises.
 */
module InterfaceConfig {
  import opened Common
  import opened Text
  import opened InterfaceSchema
  import opened InterfaceScan

  /**
   * The records a running configuration can print: valid scanner records
   * whose bandwidth, if set, is a non-negative number.
   */
  predicate Printable(r: Interface) {
    ValidRecord(r) && (r.properties[Bandwidth].Number? ==> r.properties[Bandwidth].n >= 0)
  }

  /** One ` ip address A` line per address, in order. */
  function AddressLines(ips: seq<string>): seq<string> {
    if ips == [] then [] else [ConfigLine(IpAddress, ips[0])] + AddressLines(ips[1..])
  }

  function ShutdownLines(r: Interface): seq<string> {
    if r.enable then [] else [" shutdown"]
  }

  function DescriptionLines(v: Value): seq<string> {
    if v.Str? then [ConfigLine(Description, v.text)] else []
  }

  function BandwidthLines(v: Value): seq<string>
    requires v.Number? ==> v.n >= 0
  {
    if v.Number? then [ConfigLine(Bandwidth, NatToDigits(v.n))] else []
  }

  function LinkDetectLines(v: Value): seq<string> {
    if v == Flag(true) then [ConfigLine(LinkDetect, "")] else []
  }

  /** The indented lines of a record's block. */
  function Block(r: Interface): seq<string>
    requires Printable(r)
  {
    var props := r.properties;
    ShutdownLines(r) + DescriptionLines(props[Description]) + AddressLines(props[IpAddress].items)
      + BandwidthLines(props[Bandwidth]) + LinkDetectLines(props[LinkDetect])
  }

  /** The running configuration of `rs`: their blocks one after the other. */
  function RunningConfig(rs: seq<Interface>): seq<string>
    requires forall i :: 0 <= i < |rs| ==> Printable(rs[i])
  {
    if rs == [] then [] else [HeaderLine(rs[0].name)] + Block(rs[0]) + RunningConfig(rs[1..])
  }

  /** An indented line neither opens nor closes a block. */
  lemma IndentedBodyLine(line: string)
    requires |line| > 0 && line[0] == ' '
    ensures BodyLine(line)
  {
    assert !("interface" <= line) by {
      assert "interface"[0] != line[0];
    }
  }

  /** Every line opens with a blank. */
  predicate Indented(lines: seq<string>) {
    forall i :: 0 <= i < |lines| ==> |lines[i]| > 0 && lines[i][0] == ' '
  }

  lemma IndentedConcat(a: seq<string>, b: seq<string>)
    requires Indented(a) && Indented(b)
    ensures Indented(a + b)
  {
    forall i | 0 <= i < |a + b|
      ensures |(a + b)[i]| > 0 && (a + b)[i][0] == ' '
    {
      if i >= |a| {
        assert (a + b)[i] == b[i - |a|];
      }
    }
  }

  lemma {:induction false} IndentedAddressLines(ips: seq<string>)
    ensures Indented(AddressLines(ips))
    decreases |ips|
  {
    if ips != [] {
      SpellIpAddress(ips[0]);
      IndentedAddressLines(ips[1..]);
      IndentedConcat([ConfigLine(IpAddress, ips[0])], AddressLines(ips[1..]));
    }
  }

  lemma BlockBodyLines(r: Interface)
    requires Printable(r)
    ensures forall i :: 0 <= i < |Block(r)| ==> BodyLine(Block(r)[i])
  {
    var props := r.properties;
    var sh := ShutdownLines(r);
    var de := DescriptionLines(props[Description]);
    var ad := AddressLines(props[IpAddress].items);
    var bw := BandwidthLines(props[Bandwidth]);
    var ld := LinkDetectLines(props[LinkDetect]);
    SpellLinkDetect();
    SpellDescription(if props[Description].Str? then props[Description].text else "");
    SpellBandwidth(NatToDigits(if props[Bandwidth].Number? then props[Bandwidth].n else 0));
    IndentedAddressLines(props[IpAddress].items);
    assert Indented(sh) && Indented(de) && Indented(bw) && Indented(ld);
    IndentedConcat(sh, de);
    IndentedConcat(sh + de, ad);
    IndentedConcat(sh + de + ad, bw);
    IndentedConcat(sh + de + ad + bw, ld);
    var b := Block(r);
    forall i | 0 <= i < |b|
      ensures BodyLine(b[i])
    {
      IndentedBodyLine(b[i]);
    }
  }

  /** A line the descriptor `p` recognises stores `arg` in `p`. */
  lemma ApplyOwnLine(r: Interface, p: Prop, arg: string)
    requires Shaped(r.properties)
    requires p == Bandwidth ==> AllDigits(arg)
    requires p == LinkDetect ==> arg == ""
    ensures ApplyAll(r, [ConfigLine(p, arg)])
         == r.(properties := Store(r.properties, p, if p == LinkDetect then None else Some(arg)))
  {
    MatchConfigLine(p, arg);
    ApplyMatched(r, ConfigLine(p, arg), p, if p == LinkDetect then None else Some(arg));
  }

  /** A value the record's property `p` can hold. */
  predicate Fits(p: Prop, v: Value) {
    Admissible(p, v) && (p == IpAddress ==> v.List?) && (p == LinkDetect ==> v.Flag?)
  }

  /** The record with its property `p` set to `v`. */
  function With(r: Interface, p: Prop, v: Value): (u: Interface)
    requires Shaped(r.properties) && Fits(p, v)
    ensures Shaped(u.properties) && u.name == r.name && u.ensure == r.ensure && u.enable == r.enable
  {
    r.(properties := r.properties[p := v])
  }

  lemma WithTwice(r: Interface, p: Prop, v: Value, w: Value)
    requires Shaped(r.properties) && Fits(p, v) && Fits(p, w)
    ensures With(With(r, p, v), p, w) == With(r, p, w)
  {
    assert With(With(r, p, v), p, w).properties == With(r, p, w).properties;
  }

  lemma WithSame(r: Interface, p: Prop)
    requires Shaped(r.properties)
    ensures With(r, p, r.properties[p]) == r
  {
    assert With(r, p, r.properties[p]).properties == r.properties;
  }

  /** The record with its address list replaced by `items`. */
  function WithAddresses(r: Interface, items: seq<string>): (u: Interface)
    requires Shaped(r.properties)
    ensures Shaped(u.properties) && u.properties[IpAddress] == List(items)
  {
    With(r, IpAddress, List(items))
  }

  lemma WithAddressesTwice(r: Interface, a: seq<string>, b: seq<string>)
    requires Shaped(r.properties)
    ensures WithAddresses(WithAddresses(r, a), b) == WithAddresses(r, b)
  {
    WithTwice(r, IpAddress, List(a), List(b));
  }

  lemma ApplyFirstAddress(r: Interface, ips: seq<string>)
    requires Shaped(r.properties) && ips != []
    ensures ApplyAll(r, AddressLines(ips))
         == ApplyAll(WithAddresses(r, r.properties[IpAddress].items + [ips[0]]), AddressLines(ips[1..]))
  {
    var line := ConfigLine(IpAddress, ips[0]);
    ApplyOwnLine(r, IpAddress, ips[0]);
    assert AddressLines(ips) == [line] + AddressLines(ips[1..]);
    ApplyAllConcat(r, [line], AddressLines(ips[1..]));
  }

  /**
   * After the first address line, the rest append the rest: then all of
   * them append all the addresses.
   */
  lemma ApplyAddressStep(r: Interface, ips: seq<string>, next: Interface)
    requires Shaped(r.properties) && ips != []
    requires next == WithAddresses(r, r.properties[IpAddress].items + [ips[0]])
    requires ApplyAll(next, AddressLines(ips[1..])) == WithAddresses(next, r.properties[IpAddress].items + [ips[0]] + ips[1..])
    ensures ApplyAll(r, AddressLines(ips)) == WithAddresses(r, r.properties[IpAddress].items + ips)
  {
    var items := r.properties[IpAddress].items;
    var all := items + [ips[0]] + ips[1..];
    assert ApplyAll(r, AddressLines(ips)) == ApplyAll(next, AddressLines(ips[1..])) by {
      ApplyFirstAddress(r, ips);
    }
    assert all == items + ips by {
      AppendFirst(items, ips);
    }
    WithAddressesTwice(r, items + [ips[0]], all);
  }

  /** The address lines append their addresses, in order, to the record's list. */
  lemma {:induction false} ApplyAddressLines(r: Interface, ips: seq<string>)
    requires Shaped(r.properties)
    ensures ApplyAll(r, AddressLines(ips)) == WithAddresses(r, r.properties[IpAddress].items + ips)
    decreases |ips|
  {
    var items := r.properties[IpAddress].items;
    if ips == [] {
      assert items + ips == items;
      WithSame(r, IpAddress);
    } else {
      var next := WithAddresses(r, items + [ips[0]]);
      ApplyAddressLines(next, ips[1..]);
      ApplyAddressStep(r, ips, next);
    }
  }

  lemma ApplyShutdownLines(s: Interface, r: Interface)
    requires Shaped(s.properties) && s.enable
    ensures ApplyAll(s, ShutdownLines(r)) == s.(enable := r.enable)
  {
    if !r.enable {
      ApplyShutdown(s);
    }
  }

  lemma ApplyDescriptionLines(s: Interface, v: Value)
    requires Shaped(s.properties) && s.properties[Description] == Absent && Fits(Description, v)
    ensures ApplyAll(s, DescriptionLines(v)) == With(s, Description, v)
  {
    if v.Str? {
      ApplyOwnLine(s, Description, v.text);
    } else {
      WithSame(s, Description);
    }
  }

  lemma ApplyBandwidthLines(s: Interface, v: Value)
    requires Shaped(s.properties) && s.properties[Bandwidth] == Absent && Fits(Bandwidth, v)
    requires v.Number? ==> v.n >= 0
    ensures ApplyAll(s, BandwidthLines(v)) == With(s, Bandwidth, v)
  {
    if v.Number? {
      var d := NatToDigits(v.n);
      assert ToI(d) == v.n by {
        ToIOfDigits(d);
        DigitsValueOfNatToDigits(v.n);
      }
      assert Store(s.properties, Bandwidth, Some(d)) == s.properties[Bandwidth := v];
      ApplyOwnLine(s, Bandwidth, d);
    } else {
      WithSame(s, Bandwidth);
    }
  }

  lemma ApplyLinkDetectLines(s: Interface, v: Value)
    requires Shaped(s.properties) && s.properties[LinkDetect] == Flag(false) && Fits(LinkDetect, v)
    ensures ApplyAll(s, LinkDetectLines(v)) == With(s, LinkDetect, v)
  {
    if v == Flag(true) {
      ApplyOwnLine(s, LinkDetect, "");
    } else {
      WithSame(s, LinkDetect);
    }
  }

  lemma PrintableFits(r: Interface)
    requires Printable(r)
    ensures forall p :: p in r.properties && Fits(p, r.properties[p])
  {
    forall p
      ensures p in r.properties && Fits(p, r.properties[p])
    {
      assert p.Description? || p.IpAddress? || p.Bandwidth? || p.LinkDetect?;
    }
  }

  /** The record a block rebuilds, property by property, from a fresh record. */
  function Rebuilt(r: Interface): (u: Interface)
    requires Printable(r)
    ensures Shaped(u.properties)
  {
    PrintableFits(r);
    var props := r.properties;
    With(With(With(With(Fresh(r.name).(enable := r.enable),
      Description, props[Description]), IpAddress, props[IpAddress]), Bandwidth, props[Bandwidth]),
      LinkDetect, props[LinkDetect])
  }

  lemma RebuiltIsRecord(r: Interface)
    requires Printable(r)
    ensures Rebuilt(r) == r
  {
    assert Rebuilt(r).properties == r.properties;
  }

  lemma ApplyBlockParts(s: Interface, r: Interface)
    requires Shaped(s.properties) && Printable(r)
    ensures ApplyAll(s, Block(r))
         == ApplyAll(ApplyAll(ApplyAll(ApplyAll(ApplyAll(s, ShutdownLines(r)),
                DescriptionLines(r.properties[Description])), AddressLines(r.properties[IpAddress].items)),
                BandwidthLines(r.properties[Bandwidth])), LinkDetectLines(r.properties[LinkDetect]))
  {
    var props := r.properties;
    var sh := ShutdownLines(r);
    var de := DescriptionLines(props[Description]);
    var ad := AddressLines(props[IpAddress].items);
    var bw := BandwidthLines(props[Bandwidth]);
    var ld := LinkDetectLines(props[LinkDetect]);
    assert Block(r) == sh + de + ad + bw + ld;
    ApplyAllConcat(s, sh + de + ad + bw, ld);
    ApplyAllConcat(s, sh + de + ad, bw);
    ApplyAllConcat(s, sh + de, ad);
    ApplyAllConcat(s, sh, de);
  }

  /** Scanning a record's own block, from a fresh record of its name, rebuilds it. */
  lemma ApplyBlock(r: Interface)
    requires Printable(r)
    ensures ApplyAll(Fresh(r.name), Block(r)) == r
  {
    PrintableFits(r);
    var props := r.properties;
    var s0 := Fresh(r.name);
    var s1 := s0.(enable := r.enable);
    var s2 := With(s1, Description, props[Description]);
    var s3 := With(s2, IpAddress, props[IpAddress]);
    var s4 := With(s3, Bandwidth, props[Bandwidth]);
    var t1 := ApplyAll(s0, ShutdownLines(r));
    assert t1 == s1 by {
      ApplyShutdownLines(s0, r);
    }
    var t2 := ApplyAll(t1, DescriptionLines(props[Description]));
    assert t2 == s2 by {
      ApplyDescriptionLines(s1, props[Description]);
    }
    var t3 := ApplyAll(t2, AddressLines(props[IpAddress].items));
    assert t3 == s3 by {
      ApplyAddressLines(s2, props[IpAddress].items);
      assert [] + props[IpAddress].items == props[IpAddress].items;
    }
    var t4 := ApplyAll(t3, BandwidthLines(props[Bandwidth]));
    assert t4 == s4 by {
      ApplyBandwidthLines(s3, props[Bandwidth]);
    }
    var t5 := ApplyAll(t4, LinkDetectLines(props[LinkDetect]));
    assert t5 == r by {
      ApplyLinkDetectLines(s4, props[LinkDetect]);
      RebuiltIsRecord(r);
    }
    ApplyBlockParts(s0, r);
  }

  /** Scanning the running configuration of `rs` emits the open record, then `rs`. */
  lemma {:induction false} ScanRunningConfig(rs: seq<Interface>, found: bool, current: Option<Interface>)
    requires forall i :: 0 <= i < |rs| ==> Printable(rs[i])
    requires ScanState(found, current)
    ensures Scan(RunningConfig(rs), found, current) == Pending(current) + rs
    decreases |rs|
  {
    if rs == [] {
      assert Pending(current) + rs == Pending(current);
    } else {
      var r := rs[0];
      BlockBodyLines(r);
      HeaderBlock(r.name, Block(r), RunningConfig(rs[1..]), found, current);
      ApplyBlock(r);
      ScanRunningConfig(rs[1..], true, Some(r));
      assert rs == [r] + rs[1..];
    }
  }

  /** `self.instances` reads back exactly the records a running configuration prints. */
  lemma ParseRunningConfig(rs: seq<Interface>)
    requires forall i :: 0 <= i < |rs| ==> Printable(rs[i])
    ensures Parse(RunningConfig(rs)) == rs
  {
    ScanRunningConfig(rs, false, None);
  }

  lemma UplinkLines()
    ensures ConfigLine(Description, "uplink") == " description uplink"
    ensures ConfigLine(IpAddress, "10.0.0.1/24") == " ip address 10.0.0.1/24"
    ensures ConfigLine(LinkDetect, "") == " link-detect"
    ensures HeaderLine("eth0") == "interface eth0"
  {
    UplinkDescription();
    UplinkAddress();
    SpellLinkDetect();
    assert " " + "link-detect" == " link-detect";
    assert "interface " + "eth0" == "interface eth0";
  }

  lemma UplinkDescription()
    ensures ConfigLine(Description, "uplink") == " description uplink"
  {
    SpellDescription("uplink");
    assert " " + ("description " + "uplink") == " description uplink";
  }

  lemma UplinkAddress()
    ensures ConfigLine(IpAddress, "10.0.0.1/24") == " ip address 10.0.0.1/24"
  {
    SpellIpAddress("10.0.0.1/24");
    assert " " + ("ip address " + "10.0.0.1/24") == " ip address 10.0.0.1/24";
  }

  /** The `eth0` record of the example below. */
  const Uplink := Interface("eth0", EnsurePresent, true,
    map[Description := Str("uplink"), IpAddress := List(["10.0.0.1/24"]), Bandwidth := Absent, LinkDetect := Flag(true)])

  const UplinkConfig: seq<string> := ["interface eth0", " description uplink", " ip address 10.0.0.1/24", " link-detect"]

  lemma UplinkPrinted()
    ensures Printable(Uplink) && RunningConfig([Uplink]) == UplinkConfig
  {
    var r := Uplink;
    assert IsInterfaceName("eth0") by {
      assert IsNameChar('e') && IsNameChar('t') && IsNameChar('h') && IsNameChar('0');
    }
    assert Printable(r);
    UplinkLines();
    assert ["10.0.0.1/24"][1..] == [];
    assert AddressLines(["10.0.0.1/24"]) == [" ip address 10.0.0.1/24"];
    assert DescriptionLines(Str("uplink")) == [" description uplink"];
    assert LinkDetectLines(Flag(true)) == [" link-detect"];
    assert Block(r) == [] + [" description uplink"] + [" ip address 10.0.0.1/24"] + [] + [" link-detect"];
  }

  /**
   * A block for `eth0` with a description, one address and `link-detect`
   * gives one enabled record with those values and no bandwidth.
   */
  lemma UplinkExample()
    ensures Parse(UplinkConfig) == [Uplink]
  {
    UplinkPrinted();
    ParseRunningConfig([Uplink]);
  }
}
